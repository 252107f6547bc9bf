/** The record-shaping logic of the GQA dataset: which fields of a question entry are kept,
    the list of records a questions file yields, and the placeholder answer given to the
    exemplary first record. */
module GqaRecords {
  import opened Wrappers
  import opened Paths
  import opened GqaTypes

  /** The fields kept of a test-split entry. */
  const TestFields: seq<string> := ["question", "isBalanced", "imageId"]

  /** The fields kept of an entry of every other split. */
  const QuestionFields: seq<string> :=
    ["groups", "answer", "types", "semanticStr", "fullAnswer", "question", "semantic", "imageId"]

  /** Only the split named exactly "test" keeps the short field list. */
  function FieldsFor(split: string): seq<string> {
    if split == "test" then TestFields else QuestionFields
  }

  /** The record of one entry: the fields copied in order, the first absent one raising a
      KeyError. */
  function Project(fields: seq<string>, entry: Entry): Result<Record, GqaError>
    decreases |fields|
  {
    if fields == [] then Success(map[])
    else if fields[0] !in entry then Failure(MissingKey(fields[0]))
    else
      match Project(fields[1..], entry)
      case Failure(e) => Failure(e)
      case Success(rest) => Success(rest[fields[0] := entry[fields[0]]])
  }

  /** A record is made exactly when the entry has every kept field; it then has exactly
      the kept fields, with the entry's values; otherwise the error names the first kept
      field the entry lacks. */
  lemma {:induction false} ProjectSpec(fields: seq<string>, entry: Entry)
    ensures Project(fields, entry).Success? <==> forall f :: f in fields ==> f in entry
    ensures Project(fields, entry).Success? ==> Project(fields, entry).value.Keys == set f | f in fields
    ensures Project(fields, entry).Success? ==>
      forall f :: f in Project(fields, entry).value ==> f in entry && Project(fields, entry).value[f] == entry[f]
    ensures Project(fields, entry).Failure? ==>
      exists i :: && 0 <= i < |fields| && Project(fields, entry).error == MissingKey(fields[i])
                  && fields[i] !in entry && forall j :: 0 <= j < i ==> fields[j] in entry
    decreases |fields|
  {
    if fields != [] && fields[0] in entry {
      var tail := fields[1..];
      ProjectSpec(tail, entry);
      assert forall f :: f in fields <==> f == fields[0] || f in tail;
      if Project(tail, entry).Failure? {
        var i :| && 0 <= i < |tail| && Project(tail, entry).error == MissingKey(tail[i])
                 && tail[i] !in entry && forall j :: 0 <= j < i ==> tail[j] in entry;
        assert fields[i + 1] == tail[i];
        assert forall j :: 1 <= j < i + 1 ==> fields[j] == tail[j - 1];
      }
    }
  }

  /** The records of a list of entries, in entry order; the first entry that fails stops
      the loading with its error. */
  function ProjectAll(fields: seq<string>, items: QuestionItems): (r: Result<seq<Record>, GqaError>)
    ensures r.Success? ==> |r.value| == |items|
    decreases |items|
  {
    if items == [] then Success([])
    else
      match ProjectAll(fields, items[..|items| - 1])
      case Failure(e) => Failure(e)
      case Success(rs) =>
        match Project(fields, items[|items| - 1].1)
        case Failure(e) => Failure(e)
        case Success(rec) => Success(rs + [rec])
  }

  /** ProjectAll succeeds exactly when every entry projects, and then holds every entry's
      record at that entry's position. */
  lemma {:induction false} ProjectAllSucceeds(fields: seq<string>, items: QuestionItems)
    ensures ProjectAll(fields, items).Success? <==>
      forall k :: 0 <= k < |items| ==> Project(fields, items[k].1).Success?
    ensures ProjectAll(fields, items).Success? ==>
      forall k :: 0 <= k < |items| ==> Project(fields, items[k].1) == Success(ProjectAll(fields, items).value[k])
    decreases |items|
  {
    if items != [] {
      var n := |items| - 1;
      var front := items[..n];
      ProjectAllSucceeds(fields, front);
      assert forall k :: 0 <= k < n ==> front[k] == items[k];
      if ProjectAll(fields, front).Success? && Project(fields, items[n].1).Success? {
        var rs, rec := ProjectAll(fields, front).value, Project(fields, items[n].1).value;
        assert ProjectAll(fields, items).value == rs + [rec];
        assert forall k :: 0 <= k < n ==> (rs + [rec])[k] == rs[k];
      }
    }
  }

  /** When ProjectAll fails, its error is that of the first entry that does not project. */
  lemma {:induction false} ProjectAllFirstError(fields: seq<string>, items: QuestionItems)
    requires ProjectAll(fields, items).Failure?
    ensures exists k :: && 0 <= k < |items| && Project(fields, items[k].1) == Failure(ProjectAll(fields, items).error)
                        && forall j :: 0 <= j < k ==> Project(fields, items[j].1).Success?
    decreases |items|
  {
    var n := |items| - 1;
    var front := items[..n];
    assert forall k :: 0 <= k < n ==> front[k] == items[k];
    if ProjectAll(fields, front).Failure? {
      ProjectAllFirstError(fields, front);
      var k :| 0 <= k < n && Project(fields, front[k].1) == Failure(ProjectAll(fields, front).error) &&
        forall j :: 0 <= j < k ==> Project(fields, front[j].1).Success?;
      assert Project(fields, items[k].1) == Failure(ProjectAll(fields, items).error);
    } else {
      ProjectAllSucceeds(fields, front);
      assert Project(fields, items[n].1) == Failure(ProjectAll(fields, items).error);
    }
  }

  /** Extending a successful prefix by one entry appends that entry's record, or fails
      with that entry's error. */
  lemma ProjectAllStep(fields: seq<string>, items: QuestionItems, i: nat, done: seq<Record>)
    requires i < |items|
    requires ProjectAll(fields, items[..i]) == Success(done)
    ensures Project(fields, items[i].1).Success? ==>
      ProjectAll(fields, items[..i + 1]) == Success(done + [Project(fields, items[i].1).value])
    ensures Project(fields, items[i].1).Failure? ==>
      ProjectAll(fields, items[..i + 1]) == Failure(Project(fields, items[i].1).error)
  {
    assert items[..i + 1][..i] == items[..i];
    assert items[..i + 1][i] == items[i];
  }

  /** Once a prefix of the entries fails, the whole list fails with the same error. */
  lemma {:induction false} ProjectAllPrefixFailure(fields: seq<string>, items: QuestionItems, i: nat)
    requires i <= |items|
    requires ProjectAll(fields, items[..i]).Failure?
    ensures ProjectAll(fields, items) == ProjectAll(fields, items[..i])
    decreases |items| - i
  {
    if i < |items| {
      assert items[..i + 1][..i] == items[..i];
      ProjectAllPrefixFailure(fields, items, i + 1);
    } else {
      assert items[..i] == items;
    }
  }

  /** `load_data`: the records of the questions file at `source`, or the error that stops
      it (a missing file, or an entry without a kept field). */
  function LoadedData(split: string, source: Path, files: map<Path, QuestionItems>): (r: Result<seq<Record>, GqaError>)
    ensures source !in files ==> r == Failure(FileNotFound(source))
    ensures r.Success? ==> source in files && |r.value| == |files[source]|
  {
    if source !in files then Failure(FileNotFound(source))
    else ProjectAll(FieldsFor(split), files[source])
  }

  /** Each record of a successful ProjectAll has exactly the kept fields, each with its
      entry's value. */
  lemma ProjectAllRecords(fields: seq<string>, items: QuestionItems)
    requires ProjectAll(fields, items).Success?
    ensures forall k :: 0 <= k < |items| ==>
      && ProjectAll(fields, items).value[k].Keys == (set f | f in fields)
      && forall f :: f in ProjectAll(fields, items).value[k] ==>
           f in items[k].1 && ProjectAll(fields, items).value[k][f] == items[k].1[f]
  {
    ProjectAllSucceeds(fields, items);
    forall k | 0 <= k < |items|
      ensures ProjectAll(fields, items).value[k].Keys == (set f | f in fields)
      ensures forall f :: f in ProjectAll(fields, items).value[k] ==>
                f in items[k].1 && ProjectAll(fields, items).value[k][f] == items[k].1[f]
    {
      ProjectSpec(fields, items[k].1);
    }
  }

  /** The key sets of the two kinds of record. */
  function KeptFields(split: string): (keys: set<string>)
    ensures keys == set f | f in FieldsFor(split)
  {
    if split == "test" then {"question", "isBalanced", "imageId"}
    else {"groups", "answer", "types", "semanticStr", "fullAnswer", "question", "semantic", "imageId"}
  }

  /** Loading gives one record per entry, in entry order; a test-split record has exactly
      the three test fields, any other split's record (test-dev included) exactly the
      eight question fields, each with the entry's value. */
  lemma LoadedDataShape(split: string, source: Path, files: map<Path, QuestionItems>)
    requires LoadedData(split, source, files).Success?
    ensures source in files
    ensures |LoadedData(split, source, files).value| == |files[source]|
    ensures forall k :: 0 <= k < |files[source]| ==>
      && LoadedData(split, source, files).value[k].Keys == KeptFields(split)
      && forall f :: f in LoadedData(split, source, files).value[k] ==>
           f in files[source][k].1 && LoadedData(split, source, files).value[k][f] == files[source][k].1[f]
  {
    ProjectAllRecords(FieldsFor(split), files[source]);
  }

  /** The exemplary sample: reading the first record raises on an empty list; a first
      record without an answer gains the placeholder answer and question type. */
  function MarkFirst(data: seq<Record>): (r: Result<seq<Record>, GqaError>)
    ensures r.Failure? <==> data == []
    ensures r.Failure? ==> r.error == IndexOutOfRange(0)
    ensures r.Success? ==> |r.value| == |data| && r.value[1..] == data[1..]
    ensures r.Success? && "answer" in data[0] ==> r.value == data
    ensures r.Success? && "answer" !in data[0] ==>
      && r.value[0].Keys == data[0].Keys + {"answer", "types"}
      && r.value[0]["answer"] == Unknown && r.value[0]["types"] == Unknown
      && forall f :: f in data[0] && f != "types" ==> r.value[0][f] == data[0][f]
  {
    if data == [] then Failure(IndexOutOfRange(0))
    else if "answer" !in data[0] then Success(data[0 := data[0]["answer" := Unknown]["types" := Unknown]])
    else Success(data)
  }

  /** After loading and marking, the first record has every field the exemplary-sample log
      line reads, so that line cannot raise. */
  lemma ExemplaryFieldsPresent(split: string, source: Path, files: map<Path, QuestionItems>)
    requires LoadedData(split, source, files).Success?
    requires MarkFirst(LoadedData(split, source, files).value).Success?
    ensures var first := MarkFirst(LoadedData(split, source, files).value).value[0];
      "types" in first && "imageId" in first && "question" in first && "answer" in first
  {
    LoadedDataShape(split, source, files);
  }
}
