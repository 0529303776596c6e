/** `MetricMonitor` of scripts/training.py: an insertion-ordered dictionary
    from metric name to a {val, count, avg} record. */
module Metrics {
  import opened Common

  /** The record of one metric: running sum, number of updates, average. */
  datatype Record = Record(val: real, count: nat, avg: real)

  /** The record the defaultdict creates for a name it has not seen. */
  const Unseen: Record := Record(0.0, 0, 0.0)

  /** The monitor's dictionary: its keys in insertion order and its records. */
  datatype Table = Table(names: seq<string>, records: map<string, Record>)

  const Empty: Table := Table([], map[])

  /** Keys are distinct and are exactly the names with a record; every
      record has been updated at least once and holds avg == val / count. */
  ghost predicate WellFormed(t: Table)
  {
    && (forall i, j :: 0 <= i < j < |t.names| ==> t.names[i] != t.names[j])
    && (forall n :: n in t.records <==> n in t.names)
    && (forall n :: n in t.records ==> t.records[n].count > 0 && t.records[n].avg == t.records[n].val / t.records[n].count as real)
  }

  /** The dictionary after `update(name, v)`: the name has a record, counted
      once more than before, whose average is its sum over its count. */
  function Step(t: Table, name: string, v: real): (r: Table)
    ensures name in r.records
    ensures r.records[name].count == (if name in t.records then t.records[name].count else 0) + 1
    ensures r.records[name].avg == r.records[name].val / r.records[name].count as real
  {
    var m := if name in t.records then t.records[name] else Unseen;
    var val, count := m.val + v, m.count + 1;
    Table(if name in t.records then t.names else t.names + [name],
          t.records[name := Record(val, count, val / count as real)])
  }

  /** What `averages()` returns: one average per name, in insertion order. */
  function AveragesOf(t: Table): (r: seq<real>)
    requires WellFormed(t)
    ensures |r| == |t.names|
    ensures forall k :: 0 <= k < |r| ==> r[k] == t.records[t.names[k]].val / t.records[t.names[k]].count as real
  {
    seq(|t.names|, k requires 0 <= k < |t.names| => t.records[t.names[k]].avg)
  }

  /** After a reset there are no averages. */
  lemma NoAveragesAfterReset()
    ensures WellFormed(Empty) && AveragesOf(Empty) == []
  {
  }

  /** An update keeps the dictionary well formed. */
  lemma StepWellFormed(t: Table, name: string, v: real)
    requires WellFormed(t)
    ensures WellFormed(Step(t, name, v))
  {
    var r := Step(t, name, v);
    if name !in t.records {
      assert forall i :: 0 <= i < |t.names| ==> r.names[i] == t.names[i] && t.names[i] != name;
    }
  }

  /** A name not seen since the last reset is appended as the last key, with
      count 1 and average equal to the value. */
  lemma NewNameAppended(t: Table, name: string, v: real)
    requires WellFormed(t) && name !in t.records
    ensures Step(t, name, v).names == t.names + [name]
    ensures Step(t, name, v).records[name] == Record(v, 1, v)
    ensures Step(t, name, v).names[|t.names|] == name
  {
  }

  /** An update changes only the record of its own name; the records of the
      other names are the same, and so is the key order when the name was
      already there. */
  lemma OnlyOwnRecordChanges(t: Table, name: string, v: real)
    requires WellFormed(t)
    ensures var r := Step(t, name, v);
            (forall n :: n != name ==> (n in r.records <==> n in t.records)) &&
            (forall n :: n in t.records && n != name ==> r.records[n] == t.records[n]) &&
            (name in t.records ==> r.names == t.names) &&
            r.names[..|t.names|] == t.names
  {
  }

  /** An existing record takes the value into its sum, one more into its
      count, and their quotient as its average. */
  lemma ExistingNameAccumulates(t: Table, name: string, v: real)
    requires WellFormed(t) && name in t.records
    ensures var old_, new_ := t.records[name], Step(t, name, v).records[name];
            new_.val == old_.val + v && new_.count == old_.count + 1 &&
            new_.avg == (old_.val + v) / (old_.count + 1) as real
  {
  }

  /** `update(name, v)` for each v in vs, in order. */
  function UpdateAll(t: Table, name: string, vs: seq<real>): Table
  {
    if vs == [] then t else Step(UpdateAll(t, name, vs[..|vs| - 1]), name, vs[|vs| - 1])
  }

  /** After n updates of a name not seen since the last reset, its record
      holds the sum of the n values, the count n, and average sum / n. */
  lemma {:induction false} UpdateAllAverages(t: Table, name: string, vs: seq<real>)
    requires name !in t.records && |vs| > 0
    ensures name in UpdateAll(t, name, vs).records
    ensures UpdateAll(t, name, vs).records[name] == Record(Sum(vs), |vs|, Sum(vs) / |vs| as real)
    decreases |vs|
  {
    var init := vs[..|vs| - 1];
    if init != [] {
      UpdateAllAverages(t, name, init);
    }
  }

  class MetricMonitor {
    var floatPrecision: int
    var names: seq<string>
    var records: map<string, Record>

    function Snapshot(): Table
      reads this
    {
      Table(names, records)
    }

    ghost predicate Valid()
      reads this
    {
      WellFormed(Snapshot())
    }

    /** `__init__`: remembers the precision, then resets. */
    constructor (floatPrecision: int)
      ensures Valid() && Snapshot() == Empty && this.floatPrecision == floatPrecision
    {
      this.floatPrecision := floatPrecision;
      names, records := [], map[];
      new;
      Reset();
    }

    /** `reset`: every metric is forgotten. */
    method Reset()
      modifies this
      ensures Valid() && Snapshot() == Empty
      ensures floatPrecision == old(floatPrecision)
    {
      names, records := [], map[];
    }

    /** `update(name, v)`. */
    method Update(name: string, v: real)
      requires Valid()
      modifies this
      ensures Valid() && Snapshot() == Step(old(Snapshot()), name, v)
      ensures floatPrecision == old(floatPrecision)
    {
      ghost var before := Snapshot();
      var m := Unseen;
      if name in records {
        m := records[name];
      } else {
        names := names + [name];
      }
      var val := m.val + v;
      var count := m.count + 1;
      records := records[name := Record(val, count, val / count as real)];
      assert Snapshot() == Step(before, name, v);
      StepWellFormed(before, name, v);
    }

    /** `averages()`: one average per recorded name, in insertion order. */
    function Averages(): (r: seq<real>)
      reads this
      requires Valid()
      ensures |r| == |names|
      ensures forall k :: 0 <= k < |r| ==> r[k] == records[names[k]].val / records[names[k]].count as real
    {
      AveragesOf(Snapshot())
    }
  }
}
