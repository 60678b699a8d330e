/**
 Saved chats of one principal: a file per chat, named by its creation second.
 new_chat creates one and then keeps the three most recently written; saving
 rewrites the most recently written one.
 */
module Chats {
  const MAX_CHATS: nat := 3

  type Name = int   // the creation time, as the file name encodes it

  datatype Chat = Chat(mtime: int, conversation: string)

  datatype Entry = Entry(name: Name, mtime: int)

  /** The names of the last three chats created. */
  function Newest(created: seq<Name>): (r: seq<Name>)
    ensures |r| == if |created| < 3 then |created| else 3
    ensures forall i :: 0 <= i < |r| ==> r[i] == created[|created| - |r| + i]
  {
    if |created| <= MAX_CHATS then created else created[|created| - MAX_CHATS..]
  }

  ghost predicate Increasing(xs: seq<int>) {
    forall i, j :: 0 <= i < j < |xs| ==> xs[i] < xs[j]
  }

  /** The directory holds exactly these names, written in this order. */
  ghost predicate HoldsInOrder(dir: map<Name, Chat>, names: seq<Name>) {
    && (forall n :: n in dir <==> n in names)
    && (forall i, j :: 0 <= i < j < |names| ==>
        names[i] in dir && names[j] in dir && dir[names[i]].mtime < dir[names[j]].mtime)
  }

  /** A listing of the directory, in any order, without repetition. */
  ghost predicate Lists(files: seq<Entry>, dir: map<Name, Chat>) {
    && (forall n :: n in dir ==> exists i :: 0 <= i < |files| && files[i].name == n)
    && (forall i :: 0 <= i < |files| ==> files[i].name in dir && files[i].mtime == dir[files[i].name].mtime)
    && (forall i, j :: 0 <= i < j < |files| ==> files[i].name != files[j].name)
  }

  ghost predicate Descending(files: seq<Entry>) {
    forall i, j :: 0 <= i < j < |files| ==> files[i].mtime >= files[j].mtime
  }

  /** The most recently written file of a listing is the one created last. */
  lemma LatestIsLast(files: seq<Entry>, dir: map<Name, Chat>, names: seq<Name>, best: nat)
    requires Lists(files, dir) && HoldsInOrder(dir, names) && best < |files|
    requires forall b :: 0 <= b < |files| ==> files[best].mtime >= files[b].mtime
    ensures names != [] && files[best].name == names[|names| - 1]
  {
    var n := files[best].name;
    assert n in dir;
    var j :| 0 <= j < |names| && names[j] == n;
    var last := names[|names| - 1];
    assert last in names;
    var k :| 0 <= k < |files| && files[k].name == last;
    assert j < |names| - 1 ==> dir[names[j]].mtime < dir[last].mtime;
  }

  lemma RestHolds(dir: map<Name, Chat>, names: seq<Name>)
    requires HoldsInOrder(dir, names) && names != []
    ensures HoldsInOrder(dir - {names[|names| - 1]}, names[..|names| - 1])
  {
    var last, rest := names[|names| - 1], names[..|names| - 1];
    forall n ensures n in dir - {last} <==> n in rest {
      if n in names && n != last {
        var j :| 0 <= j < |names| && names[j] == n;
        assert rest[j] == n;
      }
      if n in rest {
        var j :| 0 <= j < |rest| && rest[j] == n;
        assert names[j] == n && dir[names[j]].mtime < dir[last].mtime;
      }
    }
  }

  lemma RestLists(files: seq<Entry>, dir: map<Name, Chat>)
    requires Lists(files, dir) && files != []
    ensures Lists(files[1..], dir - {files[0].name})
  {
    var rest, dir' := files[1..], dir - {files[0].name};
    forall n | n in dir' ensures exists i :: 0 <= i < |rest| && rest[i].name == n {
      var i :| 0 <= i < |files| && files[i].name == n;
      assert rest[i - 1].name == n;
    }
    forall i | 0 <= i < |rest| ensures rest[i].name in dir' {
      assert files[0].name != files[i + 1].name;
    }
  }

  lemma Member(dir: map<Name, Chat>, names: seq<Name>, i: nat)
    requires HoldsInOrder(dir, names) && i < |names|
    ensures names[i] in dir
  {
    var n := names[i];
    assert n in names;
  }

  lemma {:induction false} SizeOfDistinct(xs: seq<Name>)
    requires forall i, j :: 0 <= i < j < |xs| ==> xs[i] != xs[j]
    ensures |set x | x in xs| == |xs|
  {
    if xs != [] {
      SizeOfDistinct(xs[1..]);
      assert xs == [xs[0]] + xs[1..];
      assert (set x | x in xs) == {xs[0]} + (set x | x in xs[1..]);
      assert xs[0] !in xs[1..];
    }
  }

  /** A listing is as long as the directory is large. */
  lemma {:induction false} SizeOfListing(files: seq<Entry>, dir: map<Name, Chat>, names: seq<Name>)
    requires Lists(files, dir) && HoldsInOrder(dir, names)
    ensures |files| == |names|
  {
    var listed, held := set i | 0 <= i < |files| :: files[i].name, set n | n in names;
    assert listed == held by {
      forall n ensures n in listed <==> n in held {
        assert n in listed <==> exists i :: 0 <= i < |files| && files[i].name == n;
        assert n in dir <==> n in names;
      }
    }
    var firsts := seq(|files|, i requires 0 <= i < |files| => files[i].name);
    assert listed == set n | n in firsts by {
      forall n ensures n in listed <==> n in firsts {
        if i :| 0 <= i < |files| && files[i].name == n { assert firsts[i] == n; }
      }
    }
    SizeOfDistinct(firsts);
    forall i, j | 0 <= i < j < |names| ensures names[i] != names[j] {
      Member(dir, names, i);
      Member(dir, names, j);
      assert dir[names[i]].mtime < dir[names[j]].mtime;
    }
    SizeOfDistinct(names);
  }

  /** A listing of a directory written in a known order, sorted newest first, is that order reversed. */
  lemma {:induction false} SortedListing(files: seq<Entry>, dir: map<Name, Chat>, names: seq<Name>)
    requires Lists(files, dir) && Descending(files) && HoldsInOrder(dir, names)
    ensures |files| == |names|
    ensures forall i :: 0 <= i < |files| ==> files[i].name == names[|names| - 1 - i]
    decreases |names|
  {
    hide HoldsInOrder, Lists;
    SizeOfListing(files, dir, names);
    if names != [] {
      LatestIsLast(files, dir, names, 0);
      var rest := names[..|names| - 1];
      RestHolds(dir, names);
      RestLists(files, dir);
      SortedListing(files[1..], dir - {files[0].name}, rest);
      forall i | 0 <= i < |files| ensures files[i].name == names[|names| - 1 - i] {
        if i > 0 {
          assert files[i] == files[1..][i - 1];
          assert rest[|rest| - i] == names[|names| - 1 - i];
        }
      }
    }
  }

  lemma SwapLists(files: seq<Entry>, dir: map<Name, Chat>, i: nat, j: nat)
    requires Lists(files, dir) && i <= j < |files|
    ensures Lists(files[i := files[j]][j := files[i]], dir)
  {
    var s := files[i := files[j]][j := files[i]];
    forall n | n in dir ensures exists k :: 0 <= k < |s| && s[k].name == n {
      var k :| 0 <= k < |files| && files[k].name == n;
      assert s[if k == i then j else if k == j then i else k].name == n;
    }
  }

  /** The listing names the chats in the reverse of their order of creation. */
  ghost predicate Reverses(files: seq<Entry>, names: seq<Name>) {
    && |files| == |names|
    && forall i :: 0 <= i < |files| ==> files[i].name == names[|names| - 1 - i]
  }

  /** What is left of a directory once the listed files from the fourth up to the i-th are deleted. */
  ghost predicate Trimmed(files: seq<Entry>, all: map<Name, Chat>, i: nat, dir: map<Name, Chat>)
    requires i <= |files|
  {
    && (forall n :: n in dir <==> n in all && forall k :: MAX_CHATS <= k < i ==> files[k].name != n)
    && (forall n :: n in dir ==> dir[n] == all[n])
  }

  lemma Survivor(files: seq<Entry>, all: map<Name, Chat>, dir: map<Name, Chat>, names: seq<Name>, n: Name)
    requires HoldsInOrder(all, names) && Reverses(files, names) && |names| > MAX_CHATS
    requires Trimmed(files, all, |files|, dir) && n in dir
    ensures n in names[|names| - MAX_CHATS..]
  {
    var j :| 0 <= j < |names| && names[j] == n;
    assert files[|names| - 1 - j].name == n;
    assert names[|names| - MAX_CHATS..][j - (|names| - MAX_CHATS)] == n;
  }

  lemma Survivors(files: seq<Entry>, all: map<Name, Chat>, dir: map<Name, Chat>, names: seq<Name>)
    requires HoldsInOrder(all, names) && Reverses(files, names) && |names| > MAX_CHATS
    requires Trimmed(files, all, |files|, dir)
    ensures forall n :: n in dir ==> n in names[|names| - MAX_CHATS..]
  {
    hide HoldsInOrder, Reverses, Trimmed;
    forall n | n in dir ensures n in names[|names| - MAX_CHATS..] {
      Survivor(files, all, dir, names, n);
    }
  }

  lemma Kept(files: seq<Entry>, all: map<Name, Chat>, names: seq<Name>, j: nat)
    requires HoldsInOrder(all, names) && Reverses(files, names) && |names| > MAX_CHATS
    requires |names| - MAX_CHATS <= j < |names|
    ensures names[j] in all && forall k :: MAX_CHATS <= k < |files| ==> files[k].name != names[j]
  {
    Member(all, names, j);
    forall k | MAX_CHATS <= k < |files| ensures files[k].name != names[j] {
      assert all[names[|names| - 1 - k]].mtime < all[names[j]].mtime;
    }
  }

  lemma KeptStays(files: seq<Entry>, all: map<Name, Chat>, dir: map<Name, Chat>, names: seq<Name>, j: nat)
    requires HoldsInOrder(all, names) && Reverses(files, names) && |names| > MAX_CHATS
    requires Trimmed(files, all, |files|, dir) && |names| - MAX_CHATS <= j < |names|
    ensures names[j] in all && names[j] in dir && dir[names[j]] == all[names[j]]
  {
    Kept(files, all, names, j);
    var n := names[j];
    assert n in dir;
  }

  lemma KeptInOrder(files: seq<Entry>, all: map<Name, Chat>, dir: map<Name, Chat>, names: seq<Name>, i: nat, j: nat)
    requires HoldsInOrder(all, names) && Reverses(files, names) && |names| > MAX_CHATS
    requires Trimmed(files, all, |files|, dir) && |names| - MAX_CHATS <= i < j < |names|
    ensures names[i] in dir && names[j] in dir && dir[names[i]].mtime < dir[names[j]].mtime
  {
    hide Reverses, Trimmed;
    KeptStays(files, all, dir, names, i);
    KeptStays(files, all, dir, names, j);
    assert all[names[i]].mtime < all[names[j]].mtime;
  }

  lemma NewestIsTail(names: seq<Name>)
    requires |names| > MAX_CHATS
    ensures Newest(names) == names[|names| - MAX_CHATS..]
  {
  }

  /** From the m-th name on, the names are those of chats written one after another. */
  ghost predicate OrderedFrom(dir: map<Name, Chat>, names: seq<Name>, m: nat) {
    && (forall i :: m <= i < |names| ==> names[i] in dir)
    && (forall i, j :: m <= i < j < |names| ==>
        names[i] in dir && names[j] in dir && dir[names[i]].mtime < dir[names[j]].mtime)
  }

  lemma KeptOrdered(files: seq<Entry>, all: map<Name, Chat>, dir: map<Name, Chat>, names: seq<Name>)
    requires HoldsInOrder(all, names) && Reverses(files, names) && |names| > MAX_CHATS
    requires Trimmed(files, all, |files|, dir)
    ensures OrderedFrom(dir, names, |names| - MAX_CHATS)
  {
    hide HoldsInOrder, Reverses, Trimmed;
    forall i | |names| - MAX_CHATS <= i < |names| ensures names[i] in dir {
      KeptStays(files, all, dir, names, i);
    }
    forall i, j | |names| - MAX_CHATS <= i < j < |names|
      ensures names[i] in dir && names[j] in dir && dir[names[i]].mtime < dir[names[j]].mtime
    {
      KeptInOrder(files, all, dir, names, i, j);
    }
  }

  lemma InOrderFrom(dir: map<Name, Chat>, names: seq<Name>, m: nat)
    requires m <= |names| && (forall n :: n in dir ==> n in names[m..]) && OrderedFrom(dir, names, m)
    ensures HoldsInOrder(dir, names[m..])
  {
  }

  /** Deleting everything after the third of a sorted listing leaves the newest three. */
  lemma KeepNewest(files: seq<Entry>, all: map<Name, Chat>, dir: map<Name, Chat>, names: seq<Name>)
    requires HoldsInOrder(all, names) && Reverses(files, names) && |names| > MAX_CHATS
    requires Trimmed(files, all, |files|, dir)
    ensures HoldsInOrder(dir, Newest(names))
  {
    hide HoldsInOrder, Reverses, Trimmed, OrderedFrom;
    Survivors(files, all, dir, names);
    KeptOrdered(files, all, dir, names);
    InOrderFrom(dir, names, |names| - MAX_CHATS);
    NewestIsTail(names);
  }

  lemma AddLast(dir: map<Name, Chat>, names: seq<Name>, chat: Chat, now: Name)
    requires HoldsInOrder(dir, names)
    requires forall i :: 0 <= i < |names| ==> names[i] != now
    requires forall n :: n in dir ==> dir[n].mtime < chat.mtime
    ensures HoldsInOrder(dir[now := chat], names + [now])
  {
    var d, all := dir[now := chat], names + [now];
    forall i | 0 <= i < |names| ensures names[i] in dir { Member(dir, names, i); }
    forall i, j | 0 <= i < j < |all| ensures all[i] in d && all[j] in d && d[all[i]].mtime < d[all[j]].mtime {
      assert all[i] == names[i];
      assert j < |names| ==> all[j] == names[j];
    }
  }

  lemma NewestAppend(created: seq<Name>, now: Name)
    ensures Newest(created + [now]) == Newest(Newest(created) + [now])
  {
    var all, some := created + [now], Newest(created) + [now];
    forall i | 0 <= i < |Newest(all)| ensures Newest(all)[i] == Newest(some)[i] {
      var j := |all| - |Newest(all)| + i;
      assert j < |created| ==> all[j] == created[j];
    }
  }

  lemma LastStays(dir: map<Name, Chat>, created: seq<Name>)
    requires HoldsInOrder(dir, Newest(created)) && created != []
    ensures created[|created| - 1] in dir
  {
    var kept := Newest(created);
    Member(dir, kept, |kept| - 1);
  }

  lemma RewriteLast(dir: map<Name, Chat>, names: seq<Name>, chat: Chat)
    requires HoldsInOrder(dir, names) && names != []
    requires forall n :: n in dir ==> dir[n].mtime <= chat.mtime
    ensures HoldsInOrder(dir[names[|names| - 1] := chat], names)
  {
    Member(dir, names, |names| - 1);
    var last := names[|names| - 1];
    assert forall i, j :: 0 <= i < j < |names| ==> dir[names[i]].mtime < dir[names[j]].mtime;
  }

  /** The chats created so far, once one named now is: a second one in the same second takes its name. */
  function Named(created: seq<Name>, now: Name): (r: seq<Name>)
    ensures r != [] && r[|r| - 1] == now
  {
    if created != [] && created[|created| - 1] == now then created else created + [now]
  }

  lemma IncreasingNamed(created: seq<Name>, now: Name)
    requires Increasing(created) && forall i :: 0 <= i < |created| ==> created[i] <= now
    ensures Increasing(Named(created, now))
    ensures Named(created, now) != created ==> forall i :: 0 <= i < |created| ==> created[i] < now
  {
  }

  /** The name taken is new to the newest chats exactly when it is new to all. */
  lemma NewestNamed(created: seq<Name>, now: Name)
    ensures Newest(Named(Newest(created), now)) == Newest(Named(created, now))
    ensures Named(Newest(created), now) == Newest(created) <==> Named(created, now) == created
  {
    if created != [] && created[|created| - 1] == now {
      assert Newest(Newest(created)) == Newest(created);
    } else {
      NewestAppend(created, now);
      assert |created + [now]| != |created|;
      assert |Newest(created) + [now]| != |Newest(created)|;
    }
  }

  /** What a new chat leaves in the directory, in writing order. */
  lemma AddNewest(dir: map<Name, Chat>, created: seq<Name>, now: Name, time: int)
    requires Increasing(created) && HoldsInOrder(dir, Newest(created))
    requires forall i :: 0 <= i < |created| ==> created[i] <= now
    requires forall n :: n in dir ==> dir[n].mtime < time
    ensures HoldsInOrder(dir[now := Chat(time, "")], Named(Newest(created), now))
  {
    hide HoldsInOrder, Newest;
    var names := Newest(created);
    IncreasingNamed(created, now);
    NewestNamed(created, now);
    if Named(names, now) == names {
      RewriteLast(dir, names, Chat(time, ""));
    } else {
      forall i | 0 <= i < |names| ensures names[i] != now {
        assert names[i] == created[|created| - |names| + i];
      }
      AddLast(dir, names, Chat(time, ""), now);
    }
  }

  class ChatStore {
    var active: bool                // DB_CHATS_ACTIVE
    var dir: map<Name, Chat>

    ghost var created: seq<Name>    // every chat ever created, oldest first

    /** The store holds the newest three chats, and they were last written in creation order. */
    ghost predicate Valid()
      reads this
    {
      Increasing(created) && HoldsInOrder(dir, Newest(created))
    }

    constructor ()
      ensures Valid() && created == [] && dir == map[] && !active
    {
      active, dir, created := false, map[], [];
    }

    /** directory_iterator: entries come in no particular order. */
    method List() returns (files: seq<Entry>)
      ensures Lists(files, dir)
    {
      files := [];
      var rest := dir.Items;
      while rest != {}
        invariant rest <= dir.Items
        invariant forall i :: 0 <= i < |files| ==>
            files[i].name in dir && files[i].mtime == dir[files[i].name].mtime
        invariant forall i, c :: 0 <= i < |files| ==> (files[i].name, c) !in rest
        invariant forall i, j :: 0 <= i < j < |files| ==> files[i].name != files[j].name
        invariant forall n :: n in dir && (n, dir[n]) !in rest ==> exists i :: 0 <= i < |files| && files[i].name == n
        decreases rest
      {
        var item :| item in rest;
        ghost var before := files;
        files := files + [Entry(item.0, item.1.mtime)];
        rest := rest - {item};
        forall m | m in dir && (m, dir[m]) !in rest ensures exists i :: 0 <= i < |files| && files[i].name == m {
          if m == item.0 {
            assert files[|before|].name == m;
          } else {
            var i :| 0 <= i < |before| && before[i].name == m;
            assert files[i].name == m;
          }
        }
      }
      forall n | n in dir ensures exists i :: 0 <= i < |files| && files[i].name == n {
        assert (n, dir[n]) !in rest;
      }
    }

    /** Most recent write time first. */
    method SortNewestFirst(files: seq<Entry>) returns (sorted: seq<Entry>)
      requires Lists(files, dir)
      ensures Lists(sorted, dir) && Descending(sorted)
    {
      hide Lists;
      sorted := files;
      var i := 0;
      while i < |sorted|
        invariant 0 <= i <= |sorted| == |files|
        invariant Lists(sorted, dir)
        invariant forall a, b :: 0 <= a < b < |sorted| && a < i ==> sorted[a].mtime >= sorted[b].mtime
      {
        var best, j := i, i + 1;
        while j < |sorted|
          invariant i <= best < j <= |sorted|
          invariant forall b :: i <= b < j ==> sorted[best].mtime >= sorted[b].mtime
        {
          if sorted[j].mtime > sorted[best].mtime {
            best := j;
          }
          j := j + 1;
        }
        SwapLists(sorted, dir, i, best);
        sorted := sorted[i := sorted[best]][best := sorted[i]];
        i := i + 1;
      }
    }

    /** db_chats_clean: delete all but the three most recently written. */
    method Clean(ghost names: seq<Name>)
      requires HoldsInOrder(dir, names)
      modifies this`dir
      ensures HoldsInOrder(dir, Newest(names))
      ensures forall n :: n in dir ==> n in old(dir) && dir[n] == old(dir)[n]
    {
      hide HoldsInOrder, Lists, Descending;
      var files := List();
      SizeOfListing(files, dir, names);
      if |files| <= MAX_CHATS {
        return;
      }
      files := SortNewestFirst(files);
      SortedListing(files, dir, names);
      ghost var all := dir;
      var i := MAX_CHATS;
      while i < |files|
        invariant MAX_CHATS <= i <= |files| && Trimmed(files, all, i, dir)
      {
        dir := dir - {files[i].name};
        i := i + 1;
      }
      KeepNewest(files, all, dir, names);
    }

    /** db_chats_new: an empty chat in a file named by the creation second, in place of one of the same second. */
    method NewChat(now: Name, time: int)
      requires Valid() && (forall i :: 0 <= i < |created| ==> created[i] <= now)
      requires forall n :: n in dir ==> dir[n].mtime < time
      modifies this`dir, this`created
      ensures created == Named(old(created), now) && Increasing(created)
      ensures dir == old(dir)[now := Chat(time, "")]
      ensures HoldsInOrder(dir, Named(Newest(old(created)), now))
    {
      hide HoldsInOrder, Newest, Increasing;
      AddNewest(dir, created, now, time);
      IncreasingNamed(created, now);
      dir := dir[now := Chat(time, "")];
      created := Named(created, now);
    }

    /** The chat half of new_chat: create a chat, then clean. */
    method StartChat(now: Name, time: int)
      requires Valid() && (forall i :: 0 <= i < |created| ==> created[i] <= now)
      requires forall n :: n in dir ==> dir[n].mtime < time
      modifies this`dir, this`created
      ensures Valid()
      ensures !active ==> dir == old(dir) && created == old(created)
      ensures active ==>
        && created == Named(old(created), now)
        && now in dir && dir[now] == Chat(time, "")
        && forall n :: n in dir && n != now ==> n in old(dir) && dir[n] == old(dir)[n]
    {
      hide HoldsInOrder, Newest, Increasing, Named;
      if !active {
        return;
      }
      NewestNamed(created, now);
      ghost var names := Named(Newest(created), now);
      NewChat(now, time);
      Clean(names);
      LastStays(dir, created);
    }

    /** std::max_element over the write times. */
    method Latest(files: seq<Entry>) returns (best: nat)
      requires files != []
      ensures best < |files| && forall b :: 0 <= b < |files| ==> files[best].mtime >= files[b].mtime
    {
      best := 0;
      var j := 1;
      while j < |files|
        invariant 0 <= best < j <= |files|
        invariant forall b :: 0 <= b < j ==> files[best].mtime >= files[b].mtime
      {
        if files[best].mtime < files[j].mtime {
          best := j;
        }
        j := j + 1;
      }
    }

    /** db_chats_save_conversation: rewrites the most recently written chat, and only that. */
    method SaveConversation(conversation: string, now: int) returns (ok: bool)
      requires Valid() && (forall n :: n in dir ==> dir[n].mtime <= now)
      modifies this`dir
      ensures Valid()
      ensures ok <==> active && created != []
      ensures !ok ==> dir == old(dir)
      ensures ok ==>
        var newest := created[|created| - 1];
        newest in old(dir) && (dir == old(dir)[newest := Chat(now, conversation)])
    {
      hide HoldsInOrder, Lists, Increasing, Newest;
      if !active {
        return false;
      }
      var files := List();
      ghost var names := Newest(created);
      SizeOfListing(files, dir, names);
      if |files| == 0 {
        return false;
      }
      var best := Latest(files);
      LatestIsLast(files, dir, names, best);
      RewriteLast(dir, names, Chat(now, conversation));
      LastStays(dir, created);
      dir := dir[files[best].name := Chat(now, conversation)];
      ok := true;
    }
  }
}
