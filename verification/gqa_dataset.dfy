/** The GQA dataset object: its construction, which can fail at several points, and the
    loading of its records. Reading samples and collating them are the functions of
    module GqaSamples applied to the object's settings and records. */
module GqaDataset {
  import opened Wrappers
  import opened Paths
  import opened GqaTypes
  import opened GqaConfig
  import opened GqaRecords
  import opened GqaSamples

  /** The state construction ends in: the image dimensions and the loaded records. */
  datatype Loaded = Loaded(height: int, width: int, data: seq<Record>)

  /** What construction yields: image size, questions file, records, exemplary sample, in
      the order the constructor reaches them, the first failure ending it. */
  function Initialised(cfg: Settings, transform: Option<Transform>, files: map<Path, QuestionItems>): (r: Result<Loaded, GqaError>)
    ensures r.Success? ==>
      && ImageSize(transform) == Success((r.value.height, r.value.width))
      && QuestionFile(cfg).Success?
      && |r.value.data| > 0
  {
    var size :- ImageSize(transform);
    var source :- QuestionFile(cfg);
    var rows :- LoadedData(cfg.split, source, files);
    var data :- MarkFirst(rows);
    Success(Loaded(size.0, size.1, data))
  }

  /** Construction stops at the first step that fails, with that step's error. */
  lemma InitialisedStopsAt(cfg: Settings, transform: Option<Transform>, files: map<Path, QuestionItems>)
    ensures ImageSize(transform).Failure? ==>
      Initialised(cfg, transform, files) == Failure(ImageSize(transform).error)
    ensures ImageSize(transform).Success? && QuestionFile(cfg).Failure? ==>
      Initialised(cfg, transform, files) == Failure(QuestionFile(cfg).error)
  {
  }

  /** Construction fails when loading the records fails, with that error. */
  lemma InitialisedLoadFails(cfg: Settings, transform: Option<Transform>, files: map<Path, QuestionItems>, source: Path)
    requires ImageSize(transform).Success? && QuestionFile(cfg) == Success(source)
    requires LoadedData(cfg.split, source, files).Failure?
    ensures Initialised(cfg, transform, files) == Failure(LoadedData(cfg.split, source, files).error)
  {
  }

  /** Construction fails on an empty questions file, as reading the exemplary sample does. */
  lemma InitialisedMarkFails(cfg: Settings, transform: Option<Transform>, files: map<Path, QuestionItems>,
                             source: Path, rows: seq<Record>)
    requires ImageSize(transform).Success? && QuestionFile(cfg) == Success(source)
    requires LoadedData(cfg.split, source, files) == Success(rows)
    requires MarkFirst(rows).Failure?
    ensures Initialised(cfg, transform, files) == Failure(MarkFirst(rows).error)
  {
  }

  /** Construction succeeds with the results of its four steps. */
  lemma InitialisedSucceeds(cfg: Settings, transform: Option<Transform>, files: map<Path, QuestionItems>,
                            size: (int, int), source: Path, rows: seq<Record>, data: seq<Record>)
    requires ImageSize(transform) == Success(size) && QuestionFile(cfg) == Success(source)
    requires LoadedData(cfg.split, source, files) == Success(rows)
    requires MarkFirst(rows) == Success(data)
    ensures Initialised(cfg, transform, files) == Success(Loaded(size.0, size.1, data))
  {
  }

  /** A successfully built dataset has a supported split and dataset type, a scene-graph
      loader whenever scene graphs are used, at least one record, and an image id and a
      question in every record. */
  lemma InitialisedSpec(cfg: Settings, transform: Option<Transform>, files: map<Path, QuestionItems>)
    requires Initialised(cfg, transform, files).Success?
    ensures cfg.split in BalancedQuestionFiles && cfg.datasetType == "balanced"
    ensures SceneGraphFile(cfg).Some? <==> SceneGraphRequested(cfg)
    ensures |Initialised(cfg, transform, files).value.data| > 0
    ensures Readable(Initialised(cfg, transform, files).value.data)
  {
    var source := QuestionFile(cfg).value;
    SceneGraphLoaderWhenNeeded(cfg);
    var rows := LoadedData(cfg.split, source, files).value;
    LoadedDataShape(cfg.split, source, files);
    var data := MarkFirst(rows).value;
    assert data == Initialised(cfg, transform, files).value.data;
    forall k | 0 <= k < |data| ensures "imageId" in data[k] && "question" in data[k] {
      assert rows[k].Keys == KeptFields(cfg.split);
      if k > 0 { assert data[k] == data[1..][k - 1] == rows[1..][k - 1] == rows[k]; }
    }
  }

  class GQA {
    const root: Path
    const split: string
    const streamImages: bool
    const datasetType: string
    const extractFeatures: bool
    const loadSpatialFeatures: bool
    const loadObjectFeatures: bool
    const loadSceneGraph: bool
    const imageTransform: Option<Transform>
    const depth: int
    var height: int
    var width: int
    const splitImageFolder: Path
    const spatialFeaturesDir: Option<Path>
    const objectFeaturesDir: Option<Path>
    const sceneGraphFile: Option<Path>
    var data: seq<Record>

    /** The constructor arguments the object keeps. */
    function Config(): Settings {
      Settings(root, split, streamImages, datasetType, extractFeatures,
               loadSpatialFeatures, loadObjectFeatures, loadSceneGraph)
    }

    /** Every record has the two fields each sample reads, so that reading a sample fails
        only on an index out of range (see GqaSamples.ReadableReadsSucceed). */
    ghost predicate Valid()
      reads this
    {
      Readable(data)
    }

    /** The part of the constructor that cannot fail: the kept arguments, the default image
        dimensions and the loader locations. */
    constructor (root: Path, split: string, streamImages: bool, datasetType: string,
                 extractFeatures: bool, loadSpatialFeatures: bool, loadObjectFeatures: bool,
                 loadSceneGraph: bool, transform: Option<Transform>)
      ensures Config() == Settings(root, split, streamImages, datasetType, extractFeatures,
                                   loadSpatialFeatures, loadObjectFeatures, loadSceneGraph)
      ensures imageTransform == transform
      ensures depth == Depth && height == DefaultHeight && width == DefaultWidth
      ensures splitImageFolder == Join(root, "images")
      ensures spatialFeaturesDir == SpatialFeaturesDir(Config())
      ensures objectFeaturesDir == ObjectFeaturesDir(Config())
      ensures sceneGraphFile == SceneGraphFile(Config())
      ensures data == []
    {
      this.root := root;
      this.split := split;
      this.streamImages := streamImages;
      this.datasetType := datasetType;
      this.extractFeatures := extractFeatures;
      this.loadSpatialFeatures := loadSpatialFeatures;
      this.loadObjectFeatures := loadObjectFeatures;
      this.loadSceneGraph := loadSceneGraph;
      height := DefaultHeight;
      width := DefaultWidth;
      depth := Depth;
      imageTransform := transform;
      splitImageFolder := Join(root, "images");
      var cfg := Settings(root, split, streamImages, datasetType, extractFeatures,
                          loadSpatialFeatures, loadObjectFeatures, loadSceneGraph);
      spatialFeaturesDir := SpatialFeaturesDir(cfg);
      objectFeaturesDir := ObjectFeaturesDir(cfg);
      sceneGraphFile := SceneGraphFile(cfg);
      data := [];
    }

    /** Looks for a `Resize` (the transform itself, or the last one in a `Compose`) and
        takes the height and width from its size. */
    method SetImageSize() returns (err: Option<GqaError>)
      requires height == DefaultHeight && width == DefaultWidth
      modifies this`height, this`width
      ensures err.None? <==> ImageSize(imageTransform).Success?
      ensures err.Some? ==> err.value == ImageSize(imageTransform).error
      ensures err.None? ==>
        height == ImageSize(imageTransform).value.0 && width == ImageSize(imageTransform).value.1
    {
      if imageTransform.Some? {
        var resize: Option<ResizeSize> := None;
        match imageTransform.value {
          case Resize(size) =>
            resize := Some(size);
          case Compose(ts) =>
            var i := 0;
            while i < |ts|
              invariant 0 <= i <= |ts|
              invariant resize == LastResize(ts[..i])
            {
              if ts[i].Resize? {
                resize := Some(ts[i].size);
              }
              assert ts[..i + 1][..i] == ts[..i];
              i := i + 1;
            }
            assert ts[..|ts|] == ts;
          case OtherTransform(_) =>
        }
        if resize.Some? {
          match resize.value {
            case Edge(_) =>
              return Some(NotSubscriptable);
            case Dims(d) =>
              if |d| == 0 {
                return Some(IndexOutOfRange(0));
              }
              height := d[0];
              if |d| == 1 {
                return Some(IndexOutOfRange(1));
              }
              width := d[1];
          }
        }
      }
      return None;
    }

    /** `load_data`: reads the questions file at `source` and keeps, entry by entry, the
        fields of this split. */
    method LoadData(source: Path, files: map<Path, QuestionItems>) returns (r: Result<seq<Record>, GqaError>)
      ensures r == LoadedData(split, source, files)
    {
      if source !in files {
        return Failure(FileNotFound(source));
      }
      var items := files[source];
      var fields := FieldsFor(split);
      var dataset: seq<Record> := [];
      var i := 0;
      while i < |items|
        invariant 0 <= i <= |items|
        invariant ProjectAll(fields, items[..i]) == Success(dataset)
      {
        var questionData := Project(fields, items[i].1);
        ProjectAllStep(fields, items, i, dataset);
        if questionData.Failure? {
          ProjectAllPrefixFailure(fields, items, i + 1);
          return Failure(questionData.error);
        }
        dataset := dataset + [questionData.value];
        i := i + 1;
      }
      assert items[..|items|] == items;
      return Success(dataset);
    }

    /** Reads the first record as the exemplary sample, giving it the placeholder answer and
        question type when it has no answer. */
    method MarkExemplary() returns (err: Option<GqaError>)
      modifies this`data
      ensures MarkFirst(old(data)).Failure? ==> err == Some(MarkFirst(old(data)).error) && data == old(data)
      ensures MarkFirst(old(data)).Success? ==> err.None? && data == MarkFirst(old(data)).value
    {
      if |data| == 0 {
        return Some(IndexOutOfRange(0));
      }
      var sample := data[0];
      if "answer" !in sample {
        sample := sample["answer" := Unknown]["types" := Unknown];
        data := data[0 := sample];
      }
      return None;
    }

    /** The part of the constructor that can raise: image size, questions file, records
        and exemplary sample, in that order. */
    method Initialise(files: map<Path, QuestionItems>) returns (err: Option<GqaError>)
      requires height == DefaultHeight && width == DefaultWidth
      modifies this`height, this`width, this`data
      ensures err.Some? ==> Initialised(Config(), imageTransform, files) == Failure(err.value)
      ensures err.None? ==>
        && Valid()
        && Initialised(Config(), imageTransform, files) == Success(Loaded(height, width, data))
    {
      var cfg := Config();
      InitialisedStopsAt(cfg, imageTransform, files);
      err := SetImageSize();
      if err.Some? {
        return;
      }
      var source := QuestionFile(cfg);
      if source.Failure? {
        return Some(source.error);
      }
      var rows := LoadData(source.value, files);
      if rows.Failure? {
        InitialisedLoadFails(cfg, imageTransform, files, source.value);
        return Some(rows.error);
      }
      data := rows.value;
      err := MarkExemplary();
      if err.Some? {
        InitialisedMarkFails(cfg, imageTransform, files, source.value, rows.value);
        return;
      }
      InitialisedSucceeds(cfg, imageTransform, files, (height, width), source.value, rows.value, data);
      InitialisedSpec(cfg, imageTransform, files);
      assert Readable(data);
    }

    /** `GQA(...)`: builds the dataset, first fetching the archives `download` asks for.
        Returns the archives fetched and the dataset or the error construction raised. */
    static method Create(fs: set<Path>, files: map<Path, QuestionItems>,
                         root: Path := "~/data/gqa", split: string := "train",
                         streamImages: bool := true, datasetType: string := "balanced",
                         extractFeatures: bool := false, loadSpatialFeatures: bool := false,
                         loadObjectFeatures: bool := false, loadSceneGraph: bool := false,
                         transform: Option<Transform> := None, download: bool := true)
      returns (fetched: seq<Archive>, r: Result<GQA, GqaError>)
      ensures var cfg := Settings(root, split, streamImages, datasetType, extractFeatures,
                                  loadSpatialFeatures, loadObjectFeatures, loadSceneGraph);
        fetched == if download then DownloadPlan(cfg, fs) else []
      ensures var cfg := Settings(root, split, streamImages, datasetType, extractFeatures,
                                  loadSpatialFeatures, loadObjectFeatures, loadSceneGraph);
        r.Failure? ==> Initialised(cfg, transform, files) == Failure(r.error)
      ensures var cfg := Settings(root, split, streamImages, datasetType, extractFeatures,
                                  loadSpatialFeatures, loadObjectFeatures, loadSceneGraph);
        r.Success? ==>
          && fresh(r.value) && r.value.Valid()
          && r.value.Config() == cfg && r.value.imageTransform == transform
          && r.value.depth == Depth && r.value.splitImageFolder == Join(root, "images")
          && r.value.spatialFeaturesDir == SpatialFeaturesDir(cfg)
          && r.value.objectFeaturesDir == ObjectFeaturesDir(cfg)
          && r.value.sceneGraphFile == SceneGraphFile(cfg)
          && Initialised(cfg, transform, files) == Success(Loaded(r.value.height, r.value.width, r.value.data))
    {
      var cfg := Settings(root, split, streamImages, datasetType, extractFeatures,
                          loadSpatialFeatures, loadObjectFeatures, loadSceneGraph);
      var g := new GQA(root, split, streamImages, datasetType, extractFeatures,
                       loadSpatialFeatures, loadObjectFeatures, loadSceneGraph, transform);
      fetched := if download then DownloadPlan(cfg, fs) else [];
      var err := g.Initialise(files);
      if err.Some? {
        return fetched, Failure(err.value);
      }
      return fetched, Success(g);
    }
  }
}
