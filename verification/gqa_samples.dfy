/** Reading one sample of the GQA dataset and collating a list of samples into a batch. */
module GqaSamples {
  import opened Wrappers
  import opened Paths
  import opened GqaTypes
  import opened GqaConfig
  import opened GqaRecords

  /** Python list indexing accepts -n <= index < n, counting negative indices from the end. */
  predicate InRange(n: nat, index: int) {
    -(n as int) <= index < n
  }

  function Position(n: nat, index: int): (k: nat)
    requires InRange(n, index)
    ensures k < n
  {
    if index < 0 then index + n else index
  }

  /** Whether a sample carries an optional component exactly when the settings produce it. */
  predicate Conforms(cfg: Settings, s: Sample) {
    && (s.image.Some? <==> cfg.streamImages)
    && (s.spatialFeatures.Some? <==> cfg.loadSpatialFeatures)
    && (s.objFeatures.Some? <==> cfg.loadObjectFeatures)
    && (s.objNormalizedBbox.Some? <==> cfg.loadObjectFeatures)
    && (s.objAttributes.Some? <==> SceneGraphRequested(cfg))
    && (s.objRelations.Some? <==> SceneGraphRequested(cfg))
  }

  /** Whether every record has the two fields each read of a sample looks up. */
  predicate Readable(data: seq<Record>) {
    forall k :: 0 <= k < |data| ==> "imageId" in data[k] && "question" in data[k]
  }

  /** `__getitem__`: the sample at `index` of `data`. Without extracted features the spatial
      and object variables are never bound, and returning them raises. */
  function GetItem(cfg: Settings, data: seq<Record>, index: int, loaders: Loaders): (r: Result<Sample, GqaError>)
    ensures !InRange(|data|, index) ==> r == Failure(IndexOutOfRange(index))
    ensures r.Success? <==>
      InRange(|data|, index) && cfg.extractFeatures &&
      "imageId" in data[Position(|data|, index)] && "question" in data[Position(|data|, index)]
    ensures r.Success? ==>
      var item := data[Position(|data|, index)];
      && r.value.index == index
      && r.value.imageId == item["imageId"]
      && r.value.question == item["question"]
      && r.value.answer == (if "answer" in item then item["answer"] else Unknown)
      && r.value.questionType == (if "types" in item then item["types"] else Unknown)
      && Conforms(cfg, r.value)
      && (cfg.streamImages ==> r.value.image == Some(loaders.image(item["imageId"])))
      && (cfg.loadSpatialFeatures ==> r.value.spatialFeatures == Some(loaders.spatial(item["imageId"])))
      && (cfg.loadObjectFeatures ==>
            && r.value.objFeatures == Some(loaders.objects(item["imageId"]).0)
            && r.value.objNormalizedBbox == Some(loaders.objects(item["imageId"]).1))
      && (SceneGraphRequested(cfg) ==>
            && r.value.objAttributes == Some(loaders.sceneGraph(item["imageId"]).0)
            && r.value.objRelations == Some(loaders.sceneGraph(item["imageId"]).1))
    ensures InRange(|data|, index) && "imageId" !in data[Position(|data|, index)] ==>
      r == Failure(MissingKey("imageId"))
    ensures InRange(|data|, index) && "imageId" in data[Position(|data|, index)] &&
            "question" !in data[Position(|data|, index)] ==>
      r == Failure(MissingKey("question"))
    ensures (InRange(|data|, index) && "imageId" in data[Position(|data|, index)] &&
             "question" in data[Position(|data|, index)] && !cfg.extractFeatures) ==>
      r == Failure(UnboundLocal("spatial_features"))
  {
    if !InRange(|data|, index) then Failure(IndexOutOfRange(index))
    else
      var item := data[Position(|data|, index)];
      if "imageId" !in item then Failure(MissingKey("imageId"))
      else
        var imgId := item["imageId"];
        var img := if cfg.streamImages then Some(loaders.image(imgId)) else None;
        if "question" !in item then Failure(MissingKey("question"))
        else
          var question := item["question"];
          var answer := if "answer" in item then item["answer"] else Unknown;
          var questionType := if "types" in item then item["types"] else Unknown;
          if !cfg.extractFeatures then Failure(UnboundLocal("spatial_features"))
          else
            var spatial := if cfg.loadSpatialFeatures then Some(loaders.spatial(imgId)) else None;
            var objects := if cfg.loadObjectFeatures then Some(loaders.objects(imgId)) else None;
            var graph := if SceneGraphRequested(cfg) then Some(loaders.sceneGraph(imgId)) else None;
            Success(Sample(
              index, imgId, img, question, answer, questionType, spatial,
              if objects.Some? then Some(objects.value.0) else None,
              if objects.Some? then Some(objects.value.1) else None,
              if graph.Some? then Some(graph.value.0) else None,
              if graph.Some? then Some(graph.value.1) else None))
  }

  /** Whether `torch.stack` accepts the images of a batch: at least one, and none missing. */
  predicate Stackable(batch: seq<Sample>) {
    |batch| > 0 && forall k :: 0 <= k < |batch| ==> batch[k].image.Some?
  }

  function ImageColumn(batch: seq<Sample>): (col: seq<Blob>)
    requires Stackable(batch)
    ensures |col| == |batch| && forall k :: 0 <= k < |batch| ==> Some(col[k]) == batch[k].image
  {
    seq(|batch|, k requires 0 <= k < |batch| => batch[k].image.value)
  }

  /** Whether `col` holds one field of every sample, in batch order. */
  predicate ColumnOf(col: seq<Option<Blob>>, batch: seq<Sample>, field: Sample -> Option<Blob>) {
    |col| == |batch| && forall k :: 0 <= k < |batch| ==> col[k] == field(batch[k])
  }

  /** A column of optional components, present only when its flag holds. */
  function OptionalColumn(present: bool, batch: seq<Sample>, field: Sample -> Option<Blob>): (col: Option<seq<Option<Blob>>>)
    ensures col.Some? <==> present
    ensures col.Some? ==> ColumnOf(col.value, batch, field)
  {
    if present then Some(seq(|batch|, k requires 0 <= k < |batch| => field(batch[k]))) else None
  }

  /** `collate_fn`: the batch as one column per sample field. */
  function Collate(cfg: Settings, batch: seq<Sample>): (r: Result<Batch, GqaError>)
    ensures r.Failure? <==> (cfg.streamImages && !Stackable(batch)) || !cfg.extractFeatures
    ensures cfg.streamImages && !Stackable(batch) ==> r == Failure(StackFailed)
    ensures !(cfg.streamImages && !Stackable(batch)) && !cfg.extractFeatures ==>
      r == Failure(UnboundLocal("spatial_features_batch"))
    ensures r.Success? ==>
      var b := r.value;
      && |b.indices| == |b.imageIds| == |b.questions| == |b.answers| == |b.questionTypes| == |batch|
      && (forall k :: 0 <= k < |batch| ==>
            && b.indices[k] == batch[k].index && b.imageIds[k] == batch[k].imageId
            && b.questions[k] == batch[k].question && b.answers[k] == batch[k].answer
            && b.questionTypes[k] == batch[k].questionType)
      && (b.images.Some? <==> cfg.streamImages)
      && (b.images.Some? ==>
            |b.images.value| == |batch| && forall k :: 0 <= k < |batch| ==> Some(b.images.value[k]) == batch[k].image)
      && (b.spatialFeatures.Some? <==> cfg.loadSpatialFeatures)
      && (b.spatialFeatures.Some? ==> ColumnOf(b.spatialFeatures.value, batch, (s: Sample) => s.spatialFeatures))
      && (b.objFeatures.Some? <==> cfg.loadObjectFeatures)
      && (b.objFeatures.Some? ==> ColumnOf(b.objFeatures.value, batch, (s: Sample) => s.objFeatures))
      && (b.objNormalizedBbox.Some? <==> cfg.loadObjectFeatures)
      && (b.objNormalizedBbox.Some? ==> ColumnOf(b.objNormalizedBbox.value, batch, (s: Sample) => s.objNormalizedBbox))
      && (b.objAttributes.Some? <==> SceneGraphRequested(cfg))
      && (b.objAttributes.Some? ==> ColumnOf(b.objAttributes.value, batch, (s: Sample) => s.objAttributes))
      && (b.objRelations.Some? <==> SceneGraphRequested(cfg))
      && (b.objRelations.Some? ==> ColumnOf(b.objRelations.value, batch, (s: Sample) => s.objRelations))
  {
    var indices := seq(|batch|, k requires 0 <= k < |batch| => batch[k].index);
    var imageIds := seq(|batch|, k requires 0 <= k < |batch| => batch[k].imageId);
    if cfg.streamImages && !Stackable(batch) then Failure(StackFailed)
    else
      var images := if cfg.streamImages then Some(ImageColumn(batch)) else None;
      var questions := seq(|batch|, k requires 0 <= k < |batch| => batch[k].question);
      var answers := seq(|batch|, k requires 0 <= k < |batch| => batch[k].answer);
      var questionTypes := seq(|batch|, k requires 0 <= k < |batch| => batch[k].questionType);
      if !cfg.extractFeatures then Failure(UnboundLocal("spatial_features_batch"))
      else
        var graph := SceneGraphRequested(cfg);
        Success(Batch(
          indices, imageIds, images, questions, answers, questionTypes,
          OptionalColumn(cfg.loadSpatialFeatures, batch, (s: Sample) => s.spatialFeatures),
          OptionalColumn(cfg.loadObjectFeatures, batch, (s: Sample) => s.objFeatures),
          OptionalColumn(cfg.loadObjectFeatures, batch, (s: Sample) => s.objNormalizedBbox),
          OptionalColumn(graph, batch, (s: Sample) => s.objAttributes),
          OptionalColumn(graph, batch, (s: Sample) => s.objRelations)))
  }

  /** Whether every column of a batch holds `n` rows. */
  predicate Shaped(b: Batch, n: nat) {
    && |b.indices| == n && |b.imageIds| == n && |b.questions| == n
    && |b.answers| == n && |b.questionTypes| == n
    && (b.images.Some? ==> |b.images.value| == n)
    && (b.spatialFeatures.Some? ==> |b.spatialFeatures.value| == n)
    && (b.objFeatures.Some? ==> |b.objFeatures.value| == n)
    && (b.objNormalizedBbox.Some? ==> |b.objNormalizedBbox.value| == n)
    && (b.objAttributes.Some? ==> |b.objAttributes.value| == n)
    && (b.objRelations.Some? ==> |b.objRelations.value| == n)
  }

  function Cell(col: Option<seq<Option<Blob>>>, k: nat): Option<Blob>
    requires col.Some? ==> k < |col.value|
  {
    if col.Some? then col.value[k] else None
  }

  /** The `k`-th sample read back from a batch's columns. */
  function Row(b: Batch, n: nat, k: nat): Sample
    requires Shaped(b, n) && k < n
  {
    Sample(
      b.indices[k], b.imageIds[k],
      if b.images.Some? then Some(b.images.value[k]) else None,
      b.questions[k], b.answers[k], b.questionTypes[k],
      Cell(b.spatialFeatures, k), Cell(b.objFeatures, k), Cell(b.objNormalizedBbox, k),
      Cell(b.objAttributes, k), Cell(b.objRelations, k))
  }

  /** On readable records, with features extracted, reading succeeds at every index Python
      accepts and fails at every other. */
  lemma ReadableReadsSucceed(cfg: Settings, data: seq<Record>, index: int, loaders: Loaders)
    requires Readable(data) && cfg.extractFeatures
    ensures GetItem(cfg, data, index, loaders).Success? <==> InRange(|data|, index)
  {
  }

  /** Collating samples that conform to the settings loses nothing and keeps their order:
      reading row `k` back from the batch gives the `k`-th sample. */
  lemma CollateRoundTrip(cfg: Settings, batch: seq<Sample>)
    requires cfg.extractFeatures
    requires cfg.streamImages ==> |batch| > 0
    requires forall k :: 0 <= k < |batch| ==> Conforms(cfg, batch[k])
    ensures Collate(cfg, batch).Success?
    ensures Shaped(Collate(cfg, batch).value, |batch|)
    ensures forall k :: 0 <= k < |batch| ==> Row(Collate(cfg, batch).value, |batch|, k) == batch[k]
  {
    var b := Collate(cfg, batch).value;
    forall k | 0 <= k < |batch| ensures Row(b, |batch|, k) == batch[k] {
      assert Conforms(cfg, batch[k]);
    }
  }

  /** Collating the samples read at a list of indices: the answer column holds each record's
      answer, or the placeholder where the record has none. */
  lemma CollateItems(cfg: Settings, data: seq<Record>, indices: seq<int>, loaders: Loaders)
    requires cfg.extractFeatures
    requires forall i :: 0 <= i < |indices| ==> GetItem(cfg, data, indices[i], loaders).Success?
    requires cfg.streamImages ==> |indices| > 0
    ensures var batch := seq(|indices|, i requires 0 <= i < |indices| => GetItem(cfg, data, indices[i], loaders).value);
      && Collate(cfg, batch).Success?
      && Collate(cfg, batch).value.indices == indices
      && forall i :: 0 <= i < |indices| ==>
           var item := data[Position(|data|, indices[i])];
           Collate(cfg, batch).value.answers[i] == (if "answer" in item then item["answer"] else Unknown)
  {
    var batch := seq(|indices|, i requires 0 <= i < |indices| => GetItem(cfg, data, indices[i], loaders).value);
    if |indices| > 0 {
      assert GetItem(cfg, data, indices[0], loaders).Success?;
    }
    CollateRoundTrip(cfg, batch);
  }

  /** Every record of a loaded test split lacks an answer, or has the placeholder on the
      first record, so every sample read from it answers with the placeholder. */
  lemma TestSplitAnswersUnknown(cfg: Settings, source: Path, files: map<Path, QuestionItems>, index: int, loaders: Loaders)
    requires cfg.split == "test"
    requires LoadedData(cfg.split, source, files).Success?
    requires MarkFirst(LoadedData(cfg.split, source, files).value).Success?
    requires GetItem(cfg, MarkFirst(LoadedData(cfg.split, source, files).value).value, index, loaders).Success?
    ensures var s := GetItem(cfg, MarkFirst(LoadedData(cfg.split, source, files).value).value, index, loaders).value;
      s.answer == Unknown && s.questionType == Unknown
  {
    var rows := LoadedData(cfg.split, source, files).value;
    LoadedDataShape(cfg.split, source, files);
    var data := MarkFirst(rows).value;
    var k := Position(|data|, index);
    if k > 0 {
      assert data[k] == data[1..][k - 1] == rows[1..][k - 1] == rows[k];
      assert rows[k].Keys == {"question", "isBalanced", "imageId"};
    } else {
      assert "answer" !in rows[0] by { assert rows[0].Keys == {"question", "isBalanced", "imageId"}; }
    }
  }

  /** For any other split, a sample read from loaded data carries the entry's own answer
      and question type, and reading succeeds whenever features are extracted. */
  lemma OtherSplitAnswersFromFile(cfg: Settings, source: Path, files: map<Path, QuestionItems>,
                                  data: seq<Record>, index: int, loaders: Loaders)
    requires cfg.split != "test" && cfg.extractFeatures
    requires LoadedData(cfg.split, source, files).Success?
    requires MarkFirst(LoadedData(cfg.split, source, files).value) == Success(data)
    requires InRange(|data|, index)
    ensures source in files && |data| == |files[source]|
    ensures GetItem(cfg, data, index, loaders).Success?
    ensures var entry := files[source][Position(|data|, index)].1;
      && "answer" in entry && "types" in entry && "imageId" in entry
      && GetItem(cfg, data, index, loaders).value.answer == entry["answer"]
      && GetItem(cfg, data, index, loaders).value.questionType == entry["types"]
      && GetItem(cfg, data, index, loaders).value.imageId == entry["imageId"]
  {
    var rows := LoadedData(cfg.split, source, files).value;
    LoadedDataShape(cfg.split, source, files);
    var k := Position(|rows|, index);
    var rec := rows[k];
    assert rec.Keys == KeptFields(cfg.split);
    assert "answer" in rows[0] by { assert rows[0].Keys == KeptFields(cfg.split); }
    assert data == rows;
    assert "imageId" in rec && "question" in rec && "answer" in rec && "types" in rec;
  }
}
