/** MD of metadata.go with its slices: lists are windows of arrays, so two keys can share
    an array and an append may write in place. */
module Metadata {
  import opened Frames
  import opened MetadataSpec

  /** A Go slice of strings: arr[off..off + len] with room up to off + cap. */
  datatype Slice = Slice(arr: array<string>, off: nat, len: nat, cap: nat)

  ghost predicate InBounds(s: Slice) {
    s.len <= s.cap && s.off + s.cap <= s.arr.Length
  }

  ghost function View(s: Slice): seq<string>
    requires InBounds(s)
    reads s.arr
  {
    s.arr[s.off..s.off + s.len]
  }

  /** A map entry: None is a nil list. */
  type Entry = Option<Slice>

  ghost function ViewOf(e: Entry): seq<string>
    requires e.Some? ==> InBounds(e.value)
    reads if e.Some? then {e.value.arr} else {}
  {
    if e.Some? then View(e.value) else []
  }

  /** The entry of a key; a key that is absent has the nil list. */
  function EntryOf(entries: map<string, Entry>, k: string): Entry {
    if k in entries then entries[k] else None
  }

  function LenOf(e: Entry): nat {
    if e.Some? then e.value.len else 0
  }

  /** The part of a slice's array that an append may write to leaves another slice alone. */
  predicate SpareApart(s: Slice, t: Slice) {
    s.arr == t.arr ==> s.len == s.cap || s.off + s.cap <= t.off || t.off + t.cap <= s.off + s.len
  }

  function Total(entries: map<string, Entry>, order: seq<string>): nat
    requires forall k :: k in order ==> k in entries
  {
    if order == [] then 0
    else Total(entries, order[..|order| - 1]) + LenOf(entries[order[|order| - 1]])
  }

  lemma {:induction false} TotalWithout(entries: map<string, Entry>, order: seq<string>, j: nat)
    requires j < |order| && forall k :: k in order ==> k in entries
    ensures forall k :: k in order[..j] + order[j + 1..] ==> k in entries
    ensures Total(entries, order) == Total(entries, order[..j] + order[j + 1..]) + LenOf(entries[order[j]])
  {
    var n := |order| - 1;
    if j == n {
      assert order[..j] + order[j + 1..] == order[..n];
    } else {
      TotalWithout(entries, order[..n], j);
      var rest := order[..j] + order[j + 1..];
      assert rest[..|rest| - 1] == order[..n][..j] + order[..n][j + 1..];
    }
  }

  /** The two loops of Clone may visit the keys in different orders and count the same. */
  lemma {:induction false} TotalPermuted(entries: map<string, Entry>, a: seq<string>, b: seq<string>, keys: set<string>)
    requires Enumerates(a, keys) && Enumerates(b, keys) && keys <= entries.Keys
    ensures Total(entries, a) == Total(entries, b)
    decreases |a|
  {
    if a == [] {
      EnumeratesSome(b, keys);
    } else {
      var k := a[|a| - 1];
      assert k in b;
      var j :| 0 <= j < |b| && b[j] == k;
      var b' := b[..j] + b[j + 1..];
      var a' := a[..|a| - 1];
      TotalWithout(entries, b, j);
      assert a == a' + [k];
      forall x ensures x in keys - {k} <==> x in a' {
        assert x in a <==> x in a' || x == k;
      }
      WithoutEnumerates(b, keys, j);
      TotalPermuted(entries, a', b', keys - {k});
    }
  }

  lemma {:induction false} EnumeratesSome(b: seq<string>, keys: set<string>)
    requires Enumerates(b, keys)
    ensures b != [] ==> exists k :: k in keys && k in b
  {
    if b != [] {
      assert b[0] in b;
    }
  }

  lemma {:induction false} WithoutEnumerates(b: seq<string>, keys: set<string>, j: nat)
    requires Enumerates(b, keys) && j < |b|
    ensures Enumerates(b[..j] + b[j + 1..], keys - {b[j]})
  {
    var b' := b[..j] + b[j + 1..];
    assert b == b[..j] + [b[j]] + b[j + 1..];
    forall i | 0 <= i < |b'| ensures b'[i] == b[if i < j then i else i + 1] {
    }
  }

  /** The contents of an array after values were written at at. */
  function Spliced(contents: seq<string>, at: nat, values: seq<string>): seq<string>
    requires at + |values| <= |contents|
  {
    contents[..at] + values + contents[at + |values|..]
  }

  /** append with room: the values go into the spare part of the array. */
  method ExtendInPlace(s: Slice, vs: seq<string>) returns (t: Slice)
    requires InBounds(s) && s.len + |vs| <= s.cap
    modifies s.arr
    ensures t == s.(len := s.len + |vs|) && View(t) == old(View(s)) + vs
    ensures s.arr[..] == Spliced(old(s.arr[..]), s.off + s.len, vs)
  {
    t := s.(len := s.len + |vs|);
    var at := s.off + s.len;
    ghost var was := s.arr[..];
    var i := 0;
    while i < |vs|
      invariant i <= |vs| && s.arr[..] == Spliced(was, at, vs[..i])
    {
      SplicedNext(was, at, vs, i);
      s.arr[at + i] := vs[i];
      i := i + 1;
    }
    assert vs[..|vs|] == vs;
    SplicedEnd(was, s.off, at, vs);
    ViewIs(t);
  }

  lemma {:induction false} ViewIs(t: Slice)
    requires InBounds(t)
    ensures View(t) == t.arr[..][t.off..t.off + t.len]
  {
  }

  lemma {:induction false} SplicedNext(before: seq<string>, at: nat, values: seq<string>, i: nat)
    requires at + |values| <= |before| && i < |values|
    ensures Spliced(before, at, values[..i])[at + i := values[i]] == Spliced(before, at, values[..i + 1])
  {
  }

  lemma {:induction false} SplicedEnd(before: seq<string>, off: nat, at: nat, values: seq<string>)
    requires off <= at && at + |values| <= |before|
    ensures Spliced(before, at, values)[off..at + |values|] == before[off..at] + values
  {
  }

  /** append without room: the old values and the new go into a new array. */
  method Regrow(old_: seq<string>, vs: seq<string>, spare: nat) returns (t: Slice)
    ensures fresh(t.arr) && InBounds(t) && View(t) == old_ + vs
  {
    var all := old_ + vs;
    var arr := new string[|all| + spare](_ => "");
    var i := 0;
    while i < |all|
      invariant i <= |all|
      invariant arr[..i] == all[..i]
    {
      arr[i] := all[i];
      i := i + 1;
    }
    t := Slice(arr, 0, |all|, |all| + spare);
    assert View(t) == arr[..|all|];
  }

  predicate HasRoom(e: Entry, n: nat) {
    e.Some? && e.value.len + n <= e.value.cap
  }

  /** Go's append: in place exactly when there is room. */
  method AppendValues(e: Entry, vs: seq<string>, spare: nat) returns (t: Slice)
    requires e.Some? ==> InBounds(e.value)
    modifies if e.Some? then {e.value.arr} else {}
    ensures InBounds(t) && View(t) == old(ViewOf(e)) + vs
    ensures HasRoom(e, |vs|) ==>
              && t == e.value.(len := e.value.len + |vs|)
              && t.arr[..] == Spliced(old(e.value.arr[..]), e.value.off + e.value.len, vs)
    ensures !HasRoom(e, |vs|) ==> fresh(t.arr) && (e.Some? ==> e.value.arr[..] == old(e.value.arr[..]))
  {
    if HasRoom(e, |vs|) {
      t := ExtendInPlace(e.value, vs);
    } else {
      var current := if e.Some? then e.value.arr[e.value.off..e.value.off + e.value.len] else [];
      t := Regrow(current, vs, spare);
    }
  }

  lemma {:induction false} TotalGrows(entries: map<string, Entry>, order: seq<string>, i: nat, j: nat)
    requires i <= j <= |order| && forall k :: k in order ==> k in entries
    ensures Total(entries, order[..i]) <= Total(entries, order[..j])
    ensures i < j ==> Total(entries, order[..i]) + LenOf(entries[order[i]]) <= Total(entries, order[..j])
    decreases j
  {
    if i < j {
      TotalGrows(entries, order, i, j - 1);
      assert order[..j][..j - 1] == order[..j - 1];
    }
  }

  /** Go's copy of a whole slice into a window of dst. */
  method CopyInto(dst: array<string>, at: nat, src: Slice)
    requires InBounds(src) && src.arr != dst && at + src.len <= dst.Length
    modifies dst
    ensures dst[at..at + src.len] == View(src)
    ensures forall i :: 0 <= i < dst.Length && !(at <= i < at + src.len) ==> dst[i] == old(dst[i])
  {
    var i := 0;
    while i < src.len
      invariant i <= src.len
      invariant forall j :: at <= j < at + i ==> dst[j] == src.arr[src.off + (j - at)]
      invariant forall j :: 0 <= j < dst.Length && !(at <= j < at + i) ==> dst[j] == old(dst[j])
    {
      dst[at + i] := src.arr[src.off + i];
      i := i + 1;
    }
  }

  function Lower(c: char): char {
    if 'A' <= c <= 'Z' then c - 'A' + 'a' else c
  }

  /** strings.ToLower, for ASCII. */
  function ToLower(s: string): string {
    seq(|s|, i requires 0 <= i < |s| => Lower(s[i]))
  }

  predicate UpperLetter(c: char) {
    'A' <= c <= 'Z'
  }

  predicate SameLetter(a: char, b: char) {
    || a == b
    || (UpperLetter(a) && b as int == a as int + 32)
    || (UpperLetter(b) && a as int == b as int + 32)
  }

  predicate EqualFold(s: string, t: string) {
    |s| == |t| && forall i :: 0 <= i < |s| ==> SameLetter(s[i], t[i])
  }

  predicate LowerCase(s: string) {
    forall i :: 0 <= i < |s| ==> !UpperLetter(s[i])
  }

  /** ToLower gives the one string without upper-case letters that is equal but for case, so
      two keys have the same one exactly if they differ in case at most. */
  lemma {:induction false} ToLowerMeans(s: string, t: string)
    ensures t == ToLower(s) <==> LowerCase(t) && EqualFold(s, t)
    ensures ToLower(s) == ToLower(t) <==> EqualFold(s, t)
  {
    if EqualFold(s, t) {
      assert forall i :: 0 <= i < |s| ==> ToLower(s)[i] == ToLower(t)[i];
    }
    if ToLower(s) == ToLower(t) {
      assert |s| == |ToLower(s)| == |t|;
      forall i | 0 <= i < |s| ensures SameLetter(s[i], t[i]) {
        assert ToLower(s)[i] == ToLower(t)[i];
      }
    }
  }

  lemma {:induction false} ToLowerIs(s: string)
    ensures forall t :: t == ToLower(s) <==> LowerCase(t) && EqualFold(s, t)
  {
    forall t ensures t == ToLower(s) <==> LowerCase(t) && EqualFold(s, t) {
      ToLowerMeans(s, t);
    }
  }

  class MD {
    var entries: map<string, Entry>

    ghost predicate Valid()
      reads this
    {
      forall k :: k in entries && entries[k].Some? ==> InBounds(entries[k].value)
    }

    ghost function Arrays(): set<array<string>>
      reads this
    {
      set k | k in entries && entries[k].Some? :: entries[k].value.arr
    }

    /** The lists as values. */
    ghost function Lists(): Lists
      requires Valid()
      reads this, Arrays()
    {
      map k | k in entries :: ViewOf(entries[k])
    }

    /** No append to one key's list can write to another key's. */
    ghost predicate Isolated()
      reads this
    {
      forall j, k :: j in entries && k in entries && j != k && entries[j].Some? && entries[k].Some? ==>
        SpareApart(entries[j].value, entries[k].value)
    }

    /** All keys are as ToLower makes them: then those of a request differ in more than case. */
    ghost predicate LowerKeys()
      reads this
    {
      forall k :: k in entries ==> LowerCase(k)
    }

    constructor ()
      ensures entries == map[] && LowerKeys()
    {
      entries := map[];
    }

    /** Get: the list of a key that has one. */
    method Get(key: string) returns (list: Option<Slice>)
      requires Valid()
      ensures forall k :: k in entries && LowerCase(k) && EqualFold(key, k) ==>
                list == if ViewOf(entries[k]) != [] then entries[k] else None
      ensures (forall k :: k in entries && LowerCase(k) ==> !EqualFold(key, k)) ==> list == None
      ensures var k := ToLower(key);
              if k in entries && ViewOf(entries[k]) != [] then list == entries[k] else list == None
    {
      var k := ToLower(key);
      ToLowerIs(key);
      if k !in entries || LenOf(entries[k]) == 0 {
        list := None;
      } else {
        list := entries[k];
      }
    }

    /** Set: replaces a key's list, or deletes the key if there are no values. */
    method Set(key: string, values: Entry)
      requires values.Some? ==> InBounds(values.value)
      requires Valid()
      modifies this
      ensures Valid() && (old(LowerKeys()) ==> LowerKeys())
      ensures var k := ToLower(key);
              entries == if LenOf(values) == 0 then old(entries) - {k} else old(entries)[k := values]
    {
      var k := ToLower(key);
      ToLowerIs(key);
      if LenOf(values) == 0 {
        entries := entries - {k};
      } else {
        entries := entries[k := values];
      }
    }

    /** The contents of all arrays. */
    ghost function Memory(): map<array<string>, seq<string>>
      reads this, Arrays()
    {
      map a | a in Arrays() :: a[..]
    }

    /** A list as it was in an earlier memory. */
    ghost predicate ReadIn(memory: map<array<string>, seq<string>>, lists: Lists)
      reads this
    {
      forall j :: j in entries ==>
        j in lists && match entries[j]
                      case None => lists[j] == []
                      case Some(o) => o.arr in memory && InBounds(o) && |memory[o.arr]| == o.arr.Length
                                      && lists[j] == memory[o.arr][o.off..o.off + o.len]
    }

    lemma {:induction false} ReadsNow()
      requires Valid()
      ensures ReadIn(Memory(), Lists())
    {
    }

    /** Storing append's result for a key, whatever the other lists share with its own. */
    method Grow(k: string, values: seq<string>, spare: nat)
      requires Valid()
      modifies this, Arrays()
      ensures Valid() && entries.Keys == old(entries).Keys + {k}
      ensures ViewOf(entries[k]) == old(ViewOf(EntryOf(entries, k))) + values
      ensures Grown(old(entries), old(Lists()), k, values)
      ensures old(Isolated()) ==> Isolated()
      ensures forall j :: j in entries && entries[j].Some? ==>
                fresh(entries[j].value.arr) || entries[j].value.arr in old(Arrays())
    {
      ghost var before, lists := entries, Lists();
      var t := Extend(k, values, spare);
      StaysIsolated(k, EntryOf(entries, k), t);
      Keep(k, t, before, lists, values);
    }

    /** The result is stored. */
    method Keep(k: string, t: Slice, ghost before: map<string, Entry>, ghost lists: Lists, ghost values: seq<string>)
      requires Valid() && InBounds(t) && Grown(before, lists, k, values)
      modifies this
      ensures Valid() && entries == old(entries)[k := Some(t)] && Grown(before, lists, k, values)
      ensures ViewOf(entries[k]) == old(View(t))
      ensures old(Isolated()) && old(Room(k, t)) ==> Isolated()
    {
      entries := entries[k := Some(t)];
    }

    /** append to a key's list, before the result is stored. */
    method Extend(k: string, values: seq<string>, spare: nat) returns (t: Slice)
      requires Valid()
      modifies Arrays()
      ensures Valid() && InBounds(t)
      ensures View(t) == old(ViewOf(EntryOf(entries, k))) + values
      ensures Extends(t, EntryOf(entries, k))
      ensures fresh(t.arr) || t.arr in Arrays()
      ensures Grown(entries, old(Lists()), k, values)
    {
      var e := EntryOf(entries, k);
      ghost var was, lists := Memory(), Lists();
      ReadsNow();
      t := AppendValues(e, values, spare);
      OthersRead(was, lists, e, values);
    }

    /** append's result: the same window of the same array, grown, or an array of its own. */
    ghost predicate Extends(t: Slice, e: Entry)
      reads this
    {
      || (e.Some? && t.arr == e.value.arr && t.off == e.value.off && t.cap == e.value.cap && t.len >= e.value.len)
      || forall j :: j in entries && entries[j].Some? ==> entries[j].value.arr != t.arr
    }

    /** The lists of all keys but k after an append to k. */
    ghost predicate Grown(before: map<string, Entry>, lists: Lists, k: string, values: seq<string>)
      requires Valid()
      reads this, Arrays()
    {
      forall j :: j in before && j != k ==>
        && j in entries && entries[j] == before[j] && j in lists
        && ViewOf(entries[j]) == Beside(before[j], lists[j], EntryOf(before, k), values)
    }

    /** One list read in the memory that append leaves. */
    lemma {:induction false} OtherRead(o: Slice, was: seq<string>, list: seq<string>, e: Entry, values: seq<string>)
      requires InBounds(o) && |was| == o.arr.Length && list == was[o.off..o.off + o.len]
      requires e.Some? ==> InBounds(e.value)
      requires o.arr[..] == if HasRoom(e, |values|) && o.arr == e.value.arr
                            then Spliced(was, e.value.off + e.value.len, values) else was
      ensures View(o) == Beside(Some(o), list, e, values)
    {
      OtherList(o, was, o.arr[..], e, values);
      assert View(o) == o.arr[..][o.off..o.off + o.len];
    }

    /** The lists read in the memory that append leaves. */
    lemma {:induction false} OthersRead(was: map<array<string>, seq<string>>, lists: Lists, e: Entry,
        values: seq<string>)
      requires Valid() && ReadIn(was, lists) && (e.Some? ==> InBounds(e.value))
      requires forall a :: a in was ==> |was[a]| == a.Length
      requires forall a :: a in was ==>
                 a[..] == if HasRoom(e, |values|) && a == e.value.arr
                          then Spliced(was[a], e.value.off + e.value.len, values) else was[a]
      ensures forall j :: j in entries ==> ViewOf(entries[j]) == Beside(entries[j], lists[j], e, values)
    {
      forall j | j in entries ensures ViewOf(entries[j]) == Beside(entries[j], lists[j], e, values) {
        if entries[j].Some? {
          var o := entries[j].value;
          OtherRead(o, was[o.arr], lists[j], e, values);
        }
      }
    }

    /** t could be k's list as far as the others' room goes. */
    ghost predicate Room(k: string, t: Slice)
      reads this
    {
      forall j :: j in entries && j != k && entries[j].Some? ==>
        SpareApart(t, entries[j].value) && SpareApart(entries[j].value, t)
    }

    /** append's result has no more spare room in another list's way than the list had. */
    lemma {:induction false} StaysIsolated(k: string, e: Entry, t: Slice)
      requires Valid() && InBounds(t) && e == EntryOf(entries, k)
      requires Extends(t, e)
      ensures Isolated() ==> Room(k, t)
    {
      if Isolated() {
        forall j | j in entries && j != k && entries[j].Some?
          ensures SpareApart(t, entries[j].value) && SpareApart(entries[j].value, t)
        {
          if e.Some? {
            assert SpareApart(e.value, entries[j].value) && SpareApart(entries[j].value, e.value);
          }
        }
      }
    }

    /** Append: the key's list grows by the values. Another list changes only where the values
        were written over it, in room its own array shares with that list; as long as no
        list's spare room is another's, that is nowhere, now and at later appends. */
    method Append(key: string, values: seq<string>, spare: nat)
      requires Valid()
      modifies this, Arrays()
      ensures Valid() && (old(Isolated()) ==> Isolated()) && (old(LowerKeys()) ==> LowerKeys())
      ensures values == [] ==> entries == old(entries) && Lists() == old(Lists())
      ensures var k := ToLower(key);
              values != [] && old(Isolated()) ==>
                Lists() == old(Lists())[k := (if k in old(Lists()) then old(Lists())[k] else []) + values]
      ensures var k := ToLower(key);
              values != [] ==>
                && entries.Keys == old(entries).Keys + {k}
                && ViewOf(entries[k]) == old(ViewOf(EntryOf(entries, k))) + values
                && Grown(old(entries), old(Lists()), k, values)
    {
      if values != [] {
        ToLowerIs(key);
        ghost var k, before, lists, isolated := ToLower(key), entries, Lists(), Isolated();
        Grow(ToLower(key), values, spare);
        if isolated {
          OnlyOneGrown(this, before, lists, k, values);
        }
      }
    }
  }

  /** What is read in a list of entry o, that read `list`, after values were appended to entry e:
      in place they may have been written over it. */
  function Beside(o: Entry, list: seq<string>, e: Entry, values: seq<string>): seq<string> {
    if o.Some? && HasRoom(e, |values|) && o.value.arr == e.value.arr then
      var at := e.value.off + e.value.len;
      seq(|list|, i requires 0 <= i < |list| =>
        if at <= o.value.off + i < at + |values| then values[o.value.off + i - at] else list[i])
    else list
  }

  lemma {:induction false} OtherList(o: Slice, before: seq<string>, after: seq<string>, e: Entry, values: seq<string>)
    requires InBounds(o) && |before| == |after| == o.arr.Length
    requires e.Some? ==> InBounds(e.value)
    requires if HasRoom(e, |values|) && o.arr == e.value.arr
             then after == Spliced(before, e.value.off + e.value.len, values)
             else after == before
    ensures after[o.off..o.off + o.len] == Beside(Some(o), before[o.off..o.off + o.len], e, values)
  {
    if HasRoom(e, |values|) && o.arr == e.value.arr {
      var at := e.value.off + e.value.len;
      WindowSpliced(before, at, values, o.off, o.len);
    }
  }

  /** A window of an array after values were written at at. */
  lemma {:induction false} WindowSpliced(before: seq<string>, at: nat, values: seq<string>, off: nat, len: nat)
    requires at + |values| <= |before| && off + len <= |before|
    ensures var list := before[off..off + len];
            Spliced(before, at, values)[off..off + len]
            == seq(|list|, i requires 0 <= i < |list| =>
                     if at <= off + i < at + |values| then values[off + i - at] else list[i])
  {
    var list, now := before[off..off + len], Spliced(before, at, values)[off..off + len];
    var read := seq(|list|, i requires 0 <= i < |list| =>
                      if at <= off + i < at + |values| then values[off + i - at] else list[i]);
    assert |now| == |read|;
    forall i | 0 <= i < len ensures now[i] == read[i] {
      SplicedAt(before, at, values, off + i);
    }
  }

  lemma {:induction false} SplicedAt(contents: seq<string>, at: nat, values: seq<string>, x: nat)
    requires at + |values| <= |contents| && x < |contents|
    ensures Spliced(contents, at, values)[x] == if at <= x < at + |values| then values[x - at] else contents[x]
  {
  }

  /** A list apart from the room that is appended to reads as before, and so nothing changes
      in a map whose lists are isolated. */
  lemma {:induction false} ApartUnchanged(o: Entry, list: seq<string>, e: Entry, values: seq<string>)
    requires o.Some? ==> InBounds(o.value) && |list| == o.value.len
    requires e.Some? ==> InBounds(e.value)
    requires o.Some? && e.Some? ==> SpareApart(e.value, o.value)
    ensures Beside(o, list, e, values) == list
  {
  }

  /** The clone of an entry whose window of sv starts at at: nil stays nil. */
  function Window(e: Entry, sv: array<string>, at: nat): Entry {
    if e.None? then None else Some(Slice(sv, at, LenOf(e), LenOf(e)))
  }

  /** Key number j of the clone's copying order: nil lists stay nil, and other lists are
      the next window of sv, with no room to spare. */
  predicate Tile(clone: map<string, Entry>, from: map<string, Entry>, order: seq<string>, sv: array<string>, j: nat)
    requires j < |order| && forall k :: k in order ==> k in from
  {
    var k := order[j];
    var at := Total(from, order[..j]);
    at + LenOf(from[k]) <= sv.Length && k in clone && clone[k] == Window(from[k], sv, at)
  }

  /** The window of key number j, in an array with the given contents, holds the key's list. */
  predicate Copied(from: map<string, Entry>, lists: map<string, seq<string>>, order: seq<string>,
      contents: seq<string>, j: nat)
    requires j < |order| && forall k :: k in order ==> k in from && k in lists
  {
    var n := LenOf(from[order[j]]);
    var at := Total(from, order[..j]);
    at + n <= |contents| && contents[at..at + n] == lists[order[j]]
  }

  /** What a turn of the second loop changes is outside the windows and the entries of the
      keys before it. */
  lemma {:induction false} TilesKept(
    from: map<string, Entry>, lists: Lists, order: seq<string>, sv: array<string>, i: nat,
    was: map<string, Entry>, now: map<string, Entry>, before: seq<string>, after: seq<string>)
    requires i < |order| && forall j :: 0 <= j < i ==> order[j] != order[i]
    requires forall k :: k in order ==> k in from && k in lists
    requires forall j :: 0 <= j < i ==> Tile(was, from, order, sv, j) && Copied(from, lists, order, before, j)
    requires forall k :: k in was && k != order[i] ==> k in now && now[k] == was[k]
    requires |before| == |after| && Total(from, order[..i]) <= |before|
    requires before[..Total(from, order[..i])] == after[..Total(from, order[..i])]
    requires order[i] in now && now[order[i]] == Window(from[order[i]], sv, Total(from, order[..i]))
    requires Copied(from, lists, order, after, i) && |after| <= sv.Length
    ensures forall j :: 0 <= j < i + 1 ==> Tile(now, from, order, sv, j) && Copied(from, lists, order, after, j)
  {
    forall j | 0 <= j < i ensures Tile(now, from, order, sv, j) && Copied(from, lists, order, after, j) {
      TotalGrows(from, order, j, i);
      var at, n, cut := Total(from, order[..j]), LenOf(from[order[j]]), Total(from, order[..i]);
      assert Tile(was, from, order, sv, j) && Copied(from, lists, order, before, j);
      WindowOfPrefix(before, cut, at, n);
      WindowOfPrefix(after, cut, at, n);
    }
  }

  lemma {:induction false} WindowOfPrefix(contents: seq<string>, cut: nat, at: nat, n: nat)
    requires at + n <= cut <= |contents|
    ensures contents[at..at + n] == contents[..cut][at..at + n]
  {
  }

  /** Windows of different keys do not overlap, and none has spare room. */
  lemma {:induction false} TilesIsolated(m: MD, from: map<string, Entry>, order: seq<string>, sv: array<string>)
    requires Enumerates(order, from.Keys) && m.entries.Keys == from.Keys
    requires forall j :: 0 <= j < |order| ==> Tile(m.entries, from, order, sv, j)
    ensures m.Valid() && m.Isolated()
  {
    forall k | k in m.entries
      ensures m.entries[k].Some? ==> InBounds(m.entries[k].value) && m.entries[k].value.len == m.entries[k].value.cap
    {
      assert k in order;
      var j :| 0 <= j < |order| && order[j] == k;
      assert Tile(m.entries, from, order, sv, j);
    }
  }

  /** Tiles that hold their lists make the clone's lists the original's. */
  lemma {:induction false} TilesView(m: MD, from: map<string, Entry>, lists: map<string, seq<string>>,
      order: seq<string>, sv: array<string>)
    requires m.Valid() && Enumerates(order, from.Keys) && m.entries.Keys == from.Keys == lists.Keys
    requires forall k :: k in from && from[k].None? ==> lists[k] == []
    requires forall j :: 0 <= j < |order| ==>
              Tile(m.entries, from, order, sv, j) && Copied(from, lists, order, sv[..], j)
    ensures m.Lists() == lists
  {
    forall k | k in from ensures ViewOf(m.entries[k]) == lists[k] {
      assert k in order;
      var j :| 0 <= j < |order| && order[j] == k;
      TileView(m, from, lists, order, sv, j);
    }
  }

  lemma {:induction false} TileView(m: MD, from: map<string, Entry>, lists: map<string, seq<string>>,
      order: seq<string>, sv: array<string>, j: nat)
    requires m.Valid() && j < |order| && order[j] in lists && order[j] in from && order[j] in m.entries
    requires forall k :: k in order ==> k in from && k in m.entries && k in lists
    requires from[order[j]].None? ==> lists[order[j]] == []
    requires Tile(m.entries, from, order, sv, j) && Copied(from, lists, order, sv[..], j)
    ensures ViewOf(m.entries[order[j]]) == lists[order[j]]
  {
    var at := Total(from, order[..j]);
    assert sv[..][at..at + LenOf(from[order[j]])] == sv[at..at + LenOf(from[order[j]])];
  }

  /** One turn of Clone's second loop: the list is copied to the front of what is left of
      sv, and its window capped. */
  method CopyOne(k: string, e: Entry, sv: array<string>, at: nat, m2: MD) returns (next: nat)
    requires e.Some? ==> InBounds(e.value) && e.value.arr != sv && at + e.value.len <= sv.Length
    modifies m2, sv
    ensures next == at + LenOf(e) && (e.Some? ==> sv[at..next] == View(e.value))
    ensures forall i :: 0 <= i < sv.Length && i < at ==> sv[i] == old(sv[i])
    ensures m2.entries == old(m2.entries)[k := Window(e, sv, at)]
  {
    if e.None? {
      m2.entries := m2.entries[k := None];
      next := at;
    } else {
      CopyInto(sv, at, e.value);
      next := at + e.value.len;
      m2.entries := m2.entries[k := Some(Slice(sv, at, e.value.len, e.value.len))];
    }
  }

  /** Clone's first loop. */
  method CountValues(from: map<string, Entry>, order: seq<string>) returns (nv: nat)
    requires forall k :: k in order ==> k in from
    ensures nv == Total(from, order)
  {
    nv := 0;
    var i := 0;
    while i < |order|
      invariant i <= |order| && nv == Total(from, order[..i])
    {
      nv := nv + LenOf(from[order[i]]);
      assert order[..i + 1][..i] == order[..i];
      i := i + 1;
    }
    assert order[..i] == order;
  }

  /** One entry and its list as a value, apart from sv. */
  ghost predicate Original(e: Entry, list: seq<string>, sv: array<string>)
    reads if e.Some? then {e.value.arr} else {}
  {
    (e.Some? ==> InBounds(e.value) && e.value.arr != sv) && ViewOf(e) == list
  }

  /** The first i keys are done. */
  ghost predicate Carved(from: map<string, Entry>, lists: map<string, seq<string>>, order: seq<string>,
      sv: array<string>, m2: MD, i: nat)
    requires i <= |order| && forall k :: k in order ==> k in from && k in lists
    reads m2, sv
  {
    forall j :: 0 <= j < i ==> Tile(m2.entries, from, order, sv, j) && Copied(from, lists, order, sv[..], j)
  }

  method CarveNext(from: map<string, Entry>, ghost lists: map<string, seq<string>>, order: seq<string>,
      sv: array<string>, m2: MD, i: nat, at: nat)
    returns (next: nat)
    requires i < |order| && forall k :: k in order ==> k in from && k in lists
    requires forall j :: 0 <= j < i ==> order[j] != order[i]
    requires Original(from[order[i]], lists[order[i]], sv)
    requires sv.Length == Total(from, order) && at == Total(from, order[..i])
    requires Carved(from, lists, order, sv, m2, i)
    modifies m2, sv
    ensures next == Total(from, order[..i + 1])
    ensures m2.entries.Keys == old(m2.entries.Keys) + {order[i]}
    ensures Carved(from, lists, order, sv, m2, i + 1)
  {
    var k := order[i];
    TotalGrows(from, order, i, |order|);
    assert order[..|order|] == order && order[..i + 1][..i] == order[..i];
    ghost var was, before := m2.entries, sv[..];
    next := CopyOne(k, from[k], sv, at, m2);
    assert Copied(from, lists, order, sv[..], i);
    assert before[..at] == sv[..][..at];
    TilesKept(from, lists, order, sv, i, was, m2.entries, before, sv[..]);
  }

  lemma {:induction false} ListsAre(m: MD, lists: map<string, seq<string>>, sv: array<string>)
    requires m.Valid() && lists.Keys == m.entries.Keys
    requires forall k :: k in m.entries ==> Original(m.entries[k], lists[k], sv)
    ensures m.Lists() == lists
  {
  }

  /** Clone's second loop. */
  method CarveLoop(from: map<string, Entry>, ghost lists: map<string, seq<string>>, order: seq<string>,
      sv: array<string>, m2: MD)
    requires Enumerates(order, from.Keys) && lists.Keys == from.Keys
    requires forall k :: k in from ==> Original(from[k], lists[k], sv)
    requires sv.Length == Total(from, order) && m2.entries == map[]
    modifies m2, sv
    ensures m2.entries.Keys == from.Keys && Carved(from, lists, order, sv, m2, |order|)
    ensures forall k :: k in from ==> Original(from[k], lists[k], sv)
  {
    var i, at := 0, 0;
    while i < |order|
      invariant i <= |order| && at == Total(from, order[..i])
      invariant forall k :: k in m2.entries <==> k in order[..i]
      invariant Carved(from, lists, order, sv, m2, i)
      invariant forall k :: k in from ==> Original(from[k], lists[k], sv)
    {
      at := CarveNext(from, lists, order, sv, m2, i, at);
      InFront(order, i);
      i := i + 1;
    }
    assert order[..i] == order;
  }

  lemma {:induction false} InFront(order: seq<string>, i: nat)
    requires i < |order|
    ensures forall k :: k in order[..i + 1] <==> k in order[..i] || k == order[i]
  {
    assert order[..i + 1] == order[..i] + [order[i]];
  }

  /** What the loop has made. */
  method CarveAll(from: map<string, Entry>, ghost lists: map<string, seq<string>>, order: seq<string>,
      sv: array<string>, m2: MD)
    requires Enumerates(order, from.Keys) && lists.Keys == from.Keys
    requires forall k :: k in from ==> Original(from[k], lists[k], sv)
    requires sv.Length == Total(from, order) && m2.entries == map[]
    modifies m2, sv
    ensures m2.entries.Keys == from.Keys && m2.Valid() && m2.Isolated() && m2.Lists() == lists
    ensures forall j :: 0 <= j < |order| ==> Tile(m2.entries, from, order, sv, j)
    ensures forall k :: k in from ==> Original(from[k], lists[k], sv)
  {
    CarveLoop(from, lists, order, sv, m2);
    TilesIsolated(m2, from, order, sv);
    TilesView(m2, from, lists, order, sv);
  }

  /** Clone: the same keys and lists, nil lists kept, for every order in which its two loops
      visit the keys; the lists tile one new array exactly, each filling its window, so no
      append to one of them can touch another. */
  method Clone(m: MD?, sizing: seq<string>, copying: seq<string>) returns (m2: MD?, sv: array?<string>)
    requires m != null ==> m.Valid() && Enumerates(sizing, m.entries.Keys) && Enumerates(copying, m.entries.Keys)
    ensures m == null <==> m2 == null
    ensures m != null ==> sv != null && fresh(m2) && fresh(sv) && m2.entries.Keys == m.entries.Keys
    ensures m != null ==> sv.Length == Total(m.entries, copying)
    ensures m != null ==> forall j :: 0 <= j < |copying| ==> Tile(m2.entries, m.entries, copying, sv, j)
    ensures m != null ==> m2.Valid() && m2.Isolated() && m2.Lists() == m.Lists()
  {
    if m == null {
      return null, null;
    }
    var from := m.entries;
    ghost var lists := m.Lists();
    var nv := CountValues(from, sizing);
    TotalPermuted(from, sizing, copying, from.Keys);
    sv := new string[nv](_ => "");
    m2 := new MD();
    forall k | k in from ensures Original(from[k], lists[k], sv) {
      assert lists[k] == ViewOf(m.entries[k]);
    }
    CarveAll(from, lists, copying, sv, m2);
    ListsAre(m, lists, sv);
  }

  // ---- requests ----

  /** The inner loop of setRequest. */
  method AppendPairs(k: string, e: Entry, ghost values: seq<string>, metadata: seq<KeyValue>) returns (r: seq<KeyValue>)
    requires (e.Some? ==> InBounds(e.value)) && ViewOf(e) == values
    ensures r == metadata + Pairs(k, values)
  {
    r := metadata;
    var j := 0;
    while j < LenOf(e)
      invariant j <= LenOf(e) && r == metadata + Pairs(k, values)[..j]
    {
      r := r + [KeyValue(k, e.value.arr[e.value.off + j])];
      j := j + 1;
    }
    assert Pairs(k, values)[..j] == Pairs(k, values);
  }

  /** setRequest: the map's values are appended to the request's pairs, key by key. */
  method SetRequest(m: MD, order: seq<string>, metadata: seq<KeyValue>) returns (r: seq<KeyValue>)
    requires m.Valid() && Enumerates(order, m.entries.Keys)
    ensures r == metadata + Flatten(old(m.Lists()), order)
  {
    r := metadata;
    var i := 0;
    ghost var lists := m.Lists();
    while i < |order|
      invariant i <= |order| && r == metadata + Flatten(lists, order[..i])
    {
      var k := order[i];
      FlattenNext(lists, order, i);
      PairsAssoc(metadata, Flatten(lists, order[..i]), Pairs(k, lists[k]));
      r := AppendPairs(k, m.entries[k], lists[k], r);
      i := i + 1;
    }
    assert order[..i] == order;
  }

  lemma {:induction false} PairsAssoc(a: seq<KeyValue>, b: seq<KeyValue>, c: seq<KeyValue>)
    ensures (a + b) + c == a + (b + c)
  {
  }

  /** fromRequest: each pair in turn, as append leaves the map. */
  method FromRequest(m: MD, pairs: seq<KeyValue>, spare: nat)
    requires m.Valid()
    modifies m, m.Arrays()
    ensures m.Valid() && (old(m.Isolated()) ==> m.Isolated() && m.Lists() == Gather(old(m.Lists()), pairs))
  {
    var i := 0;
    ghost var lists := m.Lists();
    while i < |pairs|
      invariant i <= |pairs| && m.Valid()
      invariant forall k :: k in m.entries && m.entries[k].Some? ==>
                  fresh(m.entries[k].value.arr) || m.entries[k].value.arr in old(m.Arrays())
      invariant old(m.Isolated()) ==> m.Isolated() && m.Lists() == Gather(lists, pairs[..i])
    {
      AppendPair(m, pairs[i], spare);
      GatherSnoc(lists, pairs[..i], pairs[i]);
      assert pairs[..i + 1] == pairs[..i] + [pairs[i]];
      i := i + 1;
    }
    assert pairs[..i] == pairs;
  }

  /** m[kv.Key] = append(m[kv.Key], kv.Value). */
  method AppendPair(m: MD, kv: KeyValue, spare: nat)
    requires m.Valid()
    modifies m, m.Arrays()
    ensures m.Valid()
    ensures forall k :: k in m.entries && m.entries[k].Some? ==>
              fresh(m.entries[k].value.arr) || m.entries[k].value.arr in old(m.Arrays())
    ensures old(m.Isolated()) ==>
              && m.Isolated()
              && var was := if kv.key in old(m.entries) then old(m.Lists())[kv.key] else [];
                 m.Lists() == old(m.Lists())[kv.key := was + [kv.value]]
  {
    ghost var before, lists, isolated := m.entries, m.Lists(), m.Isolated();
    m.Grow(kv.key, [kv.value], spare);
    if isolated {
      OnlyOneGrown(m, before, lists, kv.key, [kv.value]);
    }
  }

  /** If no other list's room overlapped, an append changed the one list. */
  lemma {:induction false} OnlyOneGrown(m: MD, before: map<string, Entry>, lists: Lists, k: string, values: seq<string>)
    requires m.Valid() && m.entries.Keys == before.Keys + {k}
    requires lists.Keys == before.Keys && m.Grown(before, lists, k, values)
    requires forall j :: j in before && before[j].Some? ==>
              InBounds(before[j].value) && |lists[j]| == before[j].value.len
    requires k in before && before[k].Some? ==>
               forall j :: j in before && j != k && before[j].Some? ==> SpareApart(before[k].value, before[j].value)
    requires ViewOf(m.entries[k]) == (if k in lists then lists[k] else []) + values
    ensures m.Lists() == lists[k := (if k in lists then lists[k] else []) + values]
  {
    forall j | j in before && j != k ensures ViewOf(m.entries[j]) == lists[j] {
      ApartUnchanged(before[j], lists[j], EntryOf(before, k), values);
    }
  }
}
