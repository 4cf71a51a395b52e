/** Ordering of the replacement waveform files into stream slots
    (the `SortedList<int, string>` built at the start of CreateSCD). */
module SlotOrder {
  import opened ScdFormat

  datatype Option<T> = None | Some(value: T)

  /** One entry of the slot mapping: destination slot key and the index of
      the waveform file that goes there. */
  datatype MapEntry = MapEntry(key: int, source: int)

  /** One entry of the sorted list: a slot key and the file placed there. */
  datatype Slot = Slot(key: int, file: WaveFile)

  /** A dictionary never holds the same key twice. */
  predicate DistinctKeys(entries: seq<MapEntry>)
  {
    forall i, j :: 0 <= i < j < |entries| ==> entries[i].key != entries[j].key
  }

  predicate SortedByKey(slots: seq<Slot>)
  {
    forall i, j :: 0 <= i < j < |slots| ==> slots[i].key < slots[j].key
  }

  predicate DistinctSlotKeys(slots: seq<Slot>)
  {
    forall i, j :: 0 <= i < j < |slots| ==> slots[i].key != slots[j].key
  }

  /** Every mapping value indexes the waveform list, so `wavFiles[mapping[key]]`
      does not throw. */
  predicate MappingInRange(wavFiles: seq<WaveFile>, mapping: Option<seq<MapEntry>>)
  {
    mapping.Some? ==> forall i :: 0 <= i < |mapping.value| ==> 0 <= mapping.value[i].source < |wavFiles|
  }

  /** The slots in the order they are added to the sorted list: the mapping's
      entries in enumeration order, each with the file its value selects, or
      without a mapping slot i with file i. */
  function AddedSlots(wavFiles: seq<WaveFile>, mapping: Option<seq<MapEntry>>): (added: seq<Slot>)
    requires MappingInRange(wavFiles, mapping)
    ensures mapping.None? ==> |added| == |wavFiles|
    ensures mapping.Some? ==> |added| == |mapping.value|
  {
    match mapping
    case None => seq(|wavFiles|, i requires 0 <= i < |wavFiles| => Slot(i, wavFiles[i]))
    case Some(entries) =>
      seq(|entries|, i requires 0 <= i < |entries| && 0 <= entries[i].source < |wavFiles| =>
        Slot(entries[i].key, wavFiles[entries[i].source]))
  }

  /** SortedList.Add: places `s` before the first entry with a larger key. */
  function Insert(slots: seq<Slot>, s: Slot): (r: seq<Slot>)
    requires SortedByKey(slots)
    requires forall x :: x in slots ==> x.key != s.key
    ensures SortedByKey(r) && |r| == |slots| + 1
    ensures forall x :: x in r <==> x in slots || x == s
  {
    if slots == [] || s.key < slots[0].key then [s] + slots
    else
      var rest := Insert(slots[1..], s);
      assert forall x :: x in rest ==> slots[0].key < x.key by {
        forall x | x in rest ensures slots[0].key < x.key {
          if x in slots[1..] {
            var j :| 0 <= j < |slots[1..]| && slots[1..][j] == x;
            assert slots[j + 1] == x;
          }
        }
      }
      [slots[0]] + rest
  }

  /** The sorted list after adding `added` one by one: the same slots,
      arranged by ascending key. */
  function SortedList(added: seq<Slot>): (r: seq<Slot>)
    requires DistinctSlotKeys(added)
    ensures SortedByKey(r) && |r| == |added|
    ensures forall x :: x in r <==> x in added
  {
    if added == [] then []
    else
      var init := added[..|added| - 1];
      var last := added[|added| - 1];
      var sorted := SortedList(init);
      assert forall x :: x in sorted ==> x.key != last.key by {
        forall x | x in sorted ensures x.key != last.key {
          var i :| 0 <= i < |init| && init[i] == x;
        }
      }
      assert added == init + [last];
      Insert(sorted, last)
  }

  /** Adding a key larger than every present key appends at the end. */
  lemma {:induction false} InsertAfterAll(slots: seq<Slot>, s: Slot)
    requires SortedByKey(slots)
    requires forall x :: x in slots ==> x.key < s.key
    ensures Insert(slots, s) == slots + [s]
  {
    if slots != [] {
      InsertAfterAll(slots[1..], s);
      assert slots == [slots[0]] + slots[1..];
    }
  }

  /** A key-sorted list is determined by the slots it holds. */
  lemma {:induction false} SortedListUnique(a: seq<Slot>, b: seq<Slot>)
    requires SortedByKey(a) && SortedByKey(b) && |a| == |b|
    requires forall x :: x in a <==> x in b
    ensures a == b
  {
    if a != [] {
      assert a[0] == b[0] by {
        assert a[0] in b && b[0] in a;
        var i :| 0 <= i < |a| && a[i] == b[0];
        var j :| 0 <= j < |b| && b[j] == a[0];
        assert a[0].key <= b[0].key <= a[0].key;
      }
      forall x ensures x in a[1..] <==> x in b[1..] {
        if x in a[1..] {
          var i :| 0 <= i < |a[1..]| && a[1..][i] == x;
          assert a[i + 1] == x && x.key > a[0].key;
          assert x in b && x != b[0];
          var j :| 0 <= j < |b| && b[j] == x;
          assert b[1..][j - 1] == x;
        }
        if x in b[1..] {
          var j :| 0 <= j < |b[1..]| && b[1..][j] == x;
          assert b[j + 1] == x && x.key > b[0].key;
          assert x in a && x != a[0];
          var i :| 0 <= i < |a| && a[i] == x;
          assert a[1..][i - 1] == x;
        }
      }
      SortedListUnique(a[1..], b[1..]);
      assert a == [a[0]] + a[1..] && b == [b[0]] + b[1..];
    }
  }

  /** The sorted list CreateSCD builds, with the keys the mapping defines. */
  function OrderedSlots(wavFiles: seq<WaveFile>, mapping: Option<seq<MapEntry>>): (r: seq<Slot>)
    requires MappingInRange(wavFiles, mapping)
    requires mapping.Some? ==> DistinctKeys(mapping.value)
    ensures SortedByKey(r)
    ensures forall x :: x in r <==> x in AddedSlots(wavFiles, mapping)
    ensures |r| == |AddedSlots(wavFiles, mapping)|
  {
    var added := AddedSlots(wavFiles, mapping);
    assert DistinctSlotKeys(added);
    SortedList(added)
  }

  /** With a mapping, the slots hold exactly the mapping's keys, one each, in
      ascending order, and slot key k holds `wavFiles[mapping[k]]`. */
  lemma MappedSlots(wavFiles: seq<WaveFile>, entries: seq<MapEntry>, j: nat)
    requires MappingInRange(wavFiles, Some(entries)) && DistinctKeys(entries)
    requires j < |entries|
    ensures var r := OrderedSlots(wavFiles, Some(entries));
      |r| == |entries|
      && exists i :: 0 <= i < |entries| && r[j].key == entries[i].key && r[j].file == wavFiles[entries[i].source]
  {
    var r := OrderedSlots(wavFiles, Some(entries));
    var added := AddedSlots(wavFiles, Some(entries));
    assert r[j] in added;
    var i :| 0 <= i < |added| && added[i] == r[j];
  }

  /** The slot order depends only on which entries the mapping holds, not on
      the order in which the dictionary enumerates them. */
  lemma {:induction false} OrderIndependent(wavFiles: seq<WaveFile>, e1: seq<MapEntry>, e2: seq<MapEntry>)
    requires MappingInRange(wavFiles, Some(e1)) && DistinctKeys(e1)
    requires MappingInRange(wavFiles, Some(e2)) && DistinctKeys(e2)
    requires |e1| == |e2| && forall e :: e in e1 <==> e in e2
    ensures OrderedSlots(wavFiles, Some(e1)) == OrderedSlots(wavFiles, Some(e2))
  {
    var a1 := AddedSlots(wavFiles, Some(e1));
    var a2 := AddedSlots(wavFiles, Some(e2));
    forall x ensures x in a1 <==> x in a2 {
      if x in a1 {
        var i :| 0 <= i < |a1| && a1[i] == x;
        assert e1[i] in e2;
        var j :| 0 <= j < |e2| && e2[j] == e1[i];
        assert a2[j] == x;
      }
      if x in a2 {
        var j :| 0 <= j < |a2| && a2[j] == x;
        assert e2[j] in e1;
        var i :| 0 <= i < |e1| && e1[i] == e2[j];
        assert a1[i] == x;
      }
    }
    SortedListUnique(OrderedSlots(wavFiles, Some(e1)), OrderedSlots(wavFiles, Some(e2)));
  }

  /** Keys strictly increase, so each is at least the first key plus its position. */
  lemma {:induction false} KeyLowerBound(r: seq<Slot>, j: nat)
    requires SortedByKey(r) && j < |r|
    ensures r[0].key + j <= r[j].key
  {
    if j > 0 {
      KeyLowerBound(r, j - 1);
    }
  }

  /** Keys strictly increase, so each is at most the last key minus the
      number of slots after it. */
  lemma {:induction false} KeyUpperBound(r: seq<Slot>, j: nat)
    requires SortedByKey(r) && j < |r|
    ensures r[j].key + (|r| - 1 - j) <= r[|r| - 1].key
    decreases |r| - j
  {
    if j < |r| - 1 {
      KeyUpperBound(r, j + 1);
    }
  }

  /** A key-sorted list of n slots whose keys all lie in 0..n-1 has key j at
      position j. */
  lemma KeysAreIndices(r: seq<Slot>, j: nat)
    requires SortedByKey(r) && j < |r|
    requires forall x :: x in r ==> 0 <= x.key < |r|
    ensures r[j].key == j
  {
    KeyLowerBound(r, j);
    KeyUpperBound(r, j);
    assert r[0] in r && r[|r| - 1] in r;
  }

  /** When the mapping's keys are exactly the slots 0..n-1, slot k of the
      sorted list holds `wavFiles[mapping[k]]`. */
  lemma MappedSlotAt(wavFiles: seq<WaveFile>, entries: seq<MapEntry>, e: nat)
    requires MappingInRange(wavFiles, Some(entries)) && DistinctKeys(entries)
    requires forall i :: 0 <= i < |entries| ==> 0 <= entries[i].key < |entries|
    requires e < |entries|
    ensures var r := OrderedSlots(wavFiles, Some(entries));
      var k := entries[e].key;
      && |r| == |entries| && 0 <= k < |r|
      && r[k] == Slot(k, wavFiles[entries[e].source])
  {
    var r := OrderedSlots(wavFiles, Some(entries));
    var added := AddedSlots(wavFiles, Some(entries));
    var k := entries[e].key;
    forall x | x in r
      ensures 0 <= x.key < |r|
    {
      var i :| 0 <= i < |added| && added[i] == x;
    }
    KeysAreIndices(r, k);
    assert r[k] in added;
    var i :| 0 <= i < |added| && added[i] == r[k];
    assert entries[i].key == k;
  }

  /** Without a mapping, slot i holds `wavFiles[i]`, in input order. */
  lemma IdentitySlots(wavFiles: seq<WaveFile>)
    ensures OrderedSlots(wavFiles, None) == seq(|wavFiles|, i requires 0 <= i < |wavFiles| => Slot(i, wavFiles[i]))
  {
    var added := AddedSlots(wavFiles, None);
    SortedListUnique(OrderedSlots(wavFiles, None), added);
  }

  /** Adding entry i to the list built from the entries before it gives the
      list built from the entries up to and including it. */
  lemma AddEntry(wavFiles: seq<WaveFile>, entries: seq<MapEntry>, i: nat)
    requires DistinctKeys(entries) && i < |entries|
    requires forall j :: 0 <= j <= i ==> 0 <= entries[j].source < |wavFiles|
    ensures MappingInRange(wavFiles, Some(entries[..i])) && MappingInRange(wavFiles, Some(entries[..i + 1]))
    ensures DistinctSlotKeys(AddedSlots(wavFiles, Some(entries[..i])))
    ensures DistinctSlotKeys(AddedSlots(wavFiles, Some(entries[..i + 1])))
    ensures SortedByKey(SortedList(AddedSlots(wavFiles, Some(entries[..i]))))
    ensures forall x :: x in SortedList(AddedSlots(wavFiles, Some(entries[..i]))) ==> x.key != entries[i].key
    ensures SortedList(AddedSlots(wavFiles, Some(entries[..i + 1])))
         == Insert(SortedList(AddedSlots(wavFiles, Some(entries[..i]))), Slot(entries[i].key, wavFiles[entries[i].source]))
  {
    var before := AddedSlots(wavFiles, Some(entries[..i]));
    var after := AddedSlots(wavFiles, Some(entries[..i + 1]));
    assert after[..i] == before;
    forall x | x in SortedList(before) ensures x.key != entries[i].key {
      var j :| 0 <= j < |before| && before[j] == x;
    }
  }

  /** Fills the sorted list as CreateSCD does, adding the mapping's entries in
      enumeration order, or slots 0..|wavFiles|-1. Fails when a mapping value
      is not an index into `wavFiles`. */
  method OrderWavFiles(wavFiles: seq<WaveFile>, mapping: Option<seq<MapEntry>>) returns (r: Result<seq<Slot>>)
    requires mapping.Some? ==> DistinctKeys(mapping.value)
    ensures r.Err? <==> !MappingInRange(wavFiles, mapping)
    ensures r.Err? ==> r.error == MappingIndexOutOfRange
    ensures r.Ok? ==> r.value == OrderedSlots(wavFiles, mapping)
  {
    var ordered: seq<Slot> := [];
    match mapping {
      case None =>
        for i := 0 to |wavFiles|
          invariant ordered == seq(i, j requires 0 <= j < i => Slot(j, wavFiles[j]))
        {
          InsertAfterAll(ordered, Slot(i, wavFiles[i]));
          ordered := Insert(ordered, Slot(i, wavFiles[i]));
        }
        IdentitySlots(wavFiles);
      case Some(entries) =>
        for i := 0 to |entries|
          invariant forall j :: 0 <= j < i ==> 0 <= entries[j].source < |wavFiles|
          invariant ordered == SortedList(AddedSlots(wavFiles, Some(entries[..i])))
        {
          if !(0 <= entries[i].source < |wavFiles|) {
            return Err(MappingIndexOutOfRange);
          }
          AddEntry(wavFiles, entries, i);
          ordered := Insert(ordered, Slot(entries[i].key, wavFiles[entries[i].source]));
        }
        assert entries[..|entries|] == entries;
    }
    return Ok(ordered);
  }
}
