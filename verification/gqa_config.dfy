/** The configuration logic of the GQA dataset: which questions file a split reads, which
    scene-graph file and feature directories it uses, the image size a transform implies,
    and which archives must exist or be fetched. */
module GqaConfig {
  import opened Wrappers
  import opened Paths
  import opened GqaTypes

  // ---------------------------------------------------------------------------------------
  // Questions file and loader locations

  /** Scene graphs are used only when asked for and the split is not a test split. */
  predicate SceneGraphRequested(cfg: Settings) {
    cfg.loadSceneGraph && !StartsWith(cfg.split, "test")
  }

  /** The balanced questions file of each supported split, under `questions/`. */
  const BalancedQuestionFiles: map<string, string> := map[
    "train" := "train_balanced_questions.json",
    "validation" := "val_balanced_questions.json",
    "test" := "test_balanced_questions.json",
    "test-dev" := "testdev_balanced_questions.json"]

  /** The questions file of a split; only the balanced dataset type is supported. */
  function QuestionFile(cfg: Settings): (r: Result<Path, GqaError>)
    ensures r.Success? <==> cfg.split in BalancedQuestionFiles && cfg.datasetType == "balanced"
    ensures r.Success? ==>
      r.value == Join(Join(cfg.root, "questions"), BalancedQuestionFiles[cfg.split])
    ensures r.Failure? && cfg.split in BalancedQuestionFiles ==>
      r.error == UnsupportedDatasetType(cfg.datasetType)
    ensures cfg.split !in BalancedQuestionFiles ==> r == Failure(UnsupportedSplit(cfg.split))
  {
    var questions := Join(cfg.root, "questions");
    if cfg.split == "train" then
      if cfg.datasetType == "balanced" then Success(Join(questions, "train_balanced_questions.json"))
      else Failure(UnsupportedDatasetType(cfg.datasetType))
    else if cfg.split == "validation" then
      if cfg.datasetType == "balanced" then Success(Join(questions, "val_balanced_questions.json"))
      else Failure(UnsupportedDatasetType(cfg.datasetType))
    else if cfg.split == "test" then
      if cfg.datasetType == "balanced" then Success(Join(questions, "test_balanced_questions.json"))
      else Failure(UnsupportedDatasetType(cfg.datasetType))
    else if cfg.split == "test-dev" then
      if cfg.datasetType == "balanced" then Success(Join(questions, "testdev_balanced_questions.json"))
      else Failure(UnsupportedDatasetType(cfg.datasetType))
    else
      Failure(UnsupportedSplit(cfg.split))
  }

  /** The questions file names are relative paths. */
  lemma RelativeQuestionFiles(split: string)
    requires split in BalancedQuestionFiles
    ensures !StartsWith(BalancedQuestionFiles[split], "/")
  {
    var n := BalancedQuestionFiles[split];
    assert n[0] != '/' by {
      if split == "train" {} else if split == "validation" {} else if split == "test" {} else {}
    }
    assert |n| > 0 ==> n[..1] == [n[0]];
  }

  /** No two supported splits share a questions file name. */
  lemma QuestionFileNamesDistinct(split1: string, split2: string)
    requires split1 in BalancedQuestionFiles && split2 in BalancedQuestionFiles
    ensures BalancedQuestionFiles[split1] == BalancedQuestionFiles[split2] <==> split1 == split2
  {
  }

  /** Two settings that differ only in a supported split read two different files. */
  lemma QuestionFilesDistinct(cfg1: Settings, cfg2: Settings)
    requires cfg1.root == cfg2.root
    requires QuestionFile(cfg1).Success? && QuestionFile(cfg2).Success?
    ensures QuestionFile(cfg1).value == QuestionFile(cfg2).value <==> cfg1.split == cfg2.split
  {
    var n1, n2 := BalancedQuestionFiles[cfg1.split], BalancedQuestionFiles[cfg2.split];
    RelativeQuestionFiles(cfg1.split);
    RelativeQuestionFiles(cfg2.split);
    JoinInjective(Join(cfg1.root, "questions"), n1, n2);
    QuestionFileNamesDistinct(cfg1.split, cfg2.split);
  }

  /** The scene-graph file of each split that has one, under `sceneGraphs/`. */
  const SceneGraphFiles: map<string, string> := map[
    "train" := "train_sceneGraphs.json",
    "validation" := "val_sceneGraphs.json"]

  /** The scene-graph file the scene-graph loader is built from, if one is built. */
  function SceneGraphFile(cfg: Settings): (r: Option<Path>)
    ensures r.Some? <==> SceneGraphRequested(cfg) && cfg.split in SceneGraphFiles
    ensures r.Some? ==> r.value == Join(Join(cfg.root, "sceneGraphs"), SceneGraphFiles[cfg.split])
  {
    if SceneGraphRequested(cfg) then
      if cfg.split == "train" then Some(Join(Join(cfg.root, "sceneGraphs"), "train_sceneGraphs.json"))
      else if cfg.split == "validation" then Some(Join(Join(cfg.root, "sceneGraphs"), "val_sceneGraphs.json"))
      else None
    else None
  }

  /** Whenever the questions file is found and scene graphs are requested, a scene-graph
      loader exists, so reading a sample never calls a loader that was not built. */
  lemma SceneGraphLoaderWhenNeeded(cfg: Settings)
    requires QuestionFile(cfg).Success?
    ensures SceneGraphFile(cfg).Some? <==> SceneGraphRequested(cfg)
  {
  }

  /** The directory the spatial-feature loader is built from, if one is built. */
  function SpatialFeaturesDir(cfg: Settings): Option<Path> {
    if cfg.extractFeatures && cfg.loadSpatialFeatures then Some(Join(cfg.root, "spatial")) else None
  }

  /** The directory the object-feature loader is built from, if one is built. */
  function ObjectFeaturesDir(cfg: Settings): Option<Path> {
    if cfg.extractFeatures && cfg.loadObjectFeatures then Some(Join(cfg.root, "objects")) else None
  }

  // ---------------------------------------------------------------------------------------
  // Image dimensions

  const DefaultHeight: int := 480
  const DefaultWidth: int := 640
  const Depth: int := 3

  /** The size of the last `Resize` in a list of transforms, if any. */
  function LastResize(ts: seq<Transform>): Option<ResizeSize> {
    if ts == [] then None
    else if ts[|ts| - 1].Resize? then Some(ts[|ts| - 1].size)
    else LastResize(ts[..|ts| - 1])
  }

  /** LastResize finds a `Resize` exactly when there is one, and it is the last one. */
  lemma {:induction false} LastResizeIsLast(ts: seq<Transform>)
    ensures LastResize(ts).None? <==> forall i :: 0 <= i < |ts| ==> !ts[i].Resize?
    ensures LastResize(ts).Some? ==>
      exists i :: 0 <= i < |ts| && ts[i] == Resize(LastResize(ts).value) &&
        forall j :: i < j < |ts| ==> !ts[j].Resize?
    decreases |ts|
  {
    if ts == [] {
    } else if ts[|ts| - 1].Resize? {
      assert ts[|ts| - 1] == Resize(LastResize(ts).value);
    } else {
      var front := ts[..|ts| - 1];
      LastResizeIsLast(front);
      assert LastResize(ts) == LastResize(front);
      assert forall i :: 0 <= i < |front| ==> front[i] == ts[i];
      if LastResize(front).Some? {
        var i :| 0 <= i < |front| && front[i] == Resize(LastResize(front).value) &&
          forall j :: i < j < |front| ==> !front[j].Resize?;
        assert ts[i] == Resize(LastResize(ts).value);
        assert forall j :: i < j < |ts| ==> !ts[j].Resize?;
      }
    }
  }

  /** The `Resize` the dataset reads its dimensions from: the transform itself, or the last
      `Resize` directly inside a `Compose`. */
  function SelectedResize(t: Option<Transform>): Option<ResizeSize> {
    match t
    case None => None
    case Some(Resize(size)) => Some(size)
    case Some(Compose(ts)) => LastResize(ts)
    case Some(OtherTransform(_)) => None
  }

  /** Height and width read as `size[0]` and `size[1]`. */
  function SizeDims(size: ResizeSize): Result<(int, int), GqaError> {
    match size
    case Edge(_) => Failure(NotSubscriptable)
    case Dims(d) =>
      if |d| == 0 then Failure(IndexOutOfRange(0))
      else if |d| == 1 then Failure(IndexOutOfRange(1))
      else Success((d[0], d[1]))
  }

  /** The image height and width the dataset reports for a transform. */
  function ImageSize(t: Option<Transform>): (r: Result<(int, int), GqaError>)
    ensures SelectedResize(t).None? ==> r == Success((DefaultHeight, DefaultWidth))
    ensures r.Success? && SelectedResize(t).Some? ==>
      SelectedResize(t).value.Dims? && |SelectedResize(t).value.dims| >= 2 &&
      r.value == (SelectedResize(t).value.dims[0], SelectedResize(t).value.dims[1])
    ensures SelectedResize(t).Some? && SelectedResize(t).value.Dims? && |SelectedResize(t).value.dims| >= 2 ==>
      r == Success((SelectedResize(t).value.dims[0], SelectedResize(t).value.dims[1]))
    ensures SelectedResize(t).Some? && SelectedResize(t).value.Edge? ==> r == Failure(NotSubscriptable)
    ensures SelectedResize(t).Some? && SelectedResize(t).value.Dims? && |SelectedResize(t).value.dims| < 2 ==>
      r == Failure(IndexOutOfRange(|SelectedResize(t).value.dims|))
  {
    match SelectedResize(t)
    case None => Success((DefaultHeight, DefaultWidth))
    case Some(size) => SizeDims(size)
  }

  /** With no transform, a transform that is no `Resize`, or a `Compose` without one, the
      defaults stand; otherwise the dimensions come from the last `Resize` of a `Compose`. */
  lemma ImageSizeFromLastResize(t: Option<Transform>)
    ensures t.None? || t.value.OtherTransform? ==> ImageSize(t) == Success((DefaultHeight, DefaultWidth))
    ensures t.Some? && t.value.Compose? && (forall i :: 0 <= i < |t.value.transforms| ==> !t.value.transforms[i].Resize?) ==>
      ImageSize(t) == Success((DefaultHeight, DefaultWidth))
    ensures t.Some? && t.value.Compose? ==>
      forall i :: (0 <= i < |t.value.transforms| && t.value.transforms[i].Resize? &&
                   forall j :: i < j < |t.value.transforms| ==> !t.value.transforms[j].Resize?) ==>
        ImageSize(t) == SizeDims(t.value.transforms[i].size)
  {
    if t.Some? && t.value.Compose? {
      var ts := t.value.transforms;
      LastResizeIsLast(ts);
      forall i | 0 <= i < |ts| && ts[i].Resize? && (forall j :: i < j < |ts| ==> !ts[j].Resize?)
        ensures ImageSize(t) == SizeDims(ts[i].size)
      {
        var k :| 0 <= k < |ts| && ts[k] == Resize(LastResize(ts).value) &&
          forall j :: k < j < |ts| ==> !ts[j].Resize?;
        assert k == i;
      }
    }
  }

  // ---------------------------------------------------------------------------------------
  // Archives: what must exist, and what is fetched

  datatype Archive = Questions | SceneGraphs | SpatialFeatures | ObjectFeatures | Images

  const DownloadUrlPrefix: string := "https://nlp.stanford.edu/data/gqa/"

  /** The archive file names (`zip_names` and `features_names`). */
  function ArchiveName(a: Archive): string {
    match a
    case Questions => "questions1.2.zip"
    case SceneGraphs => "sceneGraphs.zip"
    case SpatialFeatures => "spatialFeatures.zip"
    case ObjectFeatures => "objectFeatures.zip"
    case Images => "images.zip"
  }

  /** Where the existence check looks for each archive. */
  function ArchivePath(root: Path, a: Archive): Path {
    match a
    case Questions => Join(Join(root, "questions"), ArchiveName(Questions))
    case SceneGraphs => Join(Join(root, "sceneGraphs"), ArchiveName(SceneGraphs))
    case SpatialFeatures => Join(root, ArchiveName(SpatialFeatures))
    case ObjectFeatures => Join(root, ArchiveName(ObjectFeatures))
    case Images => Join(root, ArchiveName(Images))
  }

  /** Whether the settings need an archive. */
  predicate Required(cfg: Settings, a: Archive) {
    match a
    case Questions => true
    case SceneGraphs => SceneGraphRequested(cfg)
    case SpatialFeatures => cfg.extractFeatures && cfg.loadSpatialFeatures
    case ObjectFeatures => cfg.extractFeatures && cfg.loadObjectFeatures
    case Images => cfg.streamImages
  }

  /** `_check_exist`: the questions archive first, then each archive the flags require. */
  function CheckExist(cfg: Settings, fs: set<Path>): (r: bool)
    ensures ArchivePath(cfg.root, Questions) !in fs ==> !r
    ensures r <==> forall a :: Required(cfg, a) ==> ArchivePath(cfg.root, a) in fs
  {
    var root := cfg.root;
    if ArchivePath(root, Questions) !in fs then false
    else if SceneGraphRequested(cfg) && ArchivePath(root, SceneGraphs) !in fs then false
    else if cfg.extractFeatures && cfg.loadSpatialFeatures && ArchivePath(root, SpatialFeatures) !in fs then false
    else if cfg.extractFeatures && cfg.loadObjectFeatures && ArchivePath(root, ObjectFeatures) !in fs then false
    else if cfg.streamImages && ArchivePath(root, Images) !in fs then false
    else true
  }

  /** One call of `download_and_extract_archive`. */
  datatype Fetch = Fetch(url: string, downloadRoot: Path, filename: string)

  /** The call `download` makes for an archive. */
  function FetchOf(root: Path, a: Archive): Fetch {
    match a
    case Questions =>
      Fetch(DownloadUrlPrefix + ArchiveName(Questions), Join(root, "questions"), ArchiveName(Questions))
    case SceneGraphs =>
      Fetch(DownloadUrlPrefix + ArchiveName(SceneGraphs), Join(root, "sceneGraphs"), ArchiveName(SceneGraphs))
    case SpatialFeatures =>
      Fetch(DownloadUrlPrefix + ArchiveName(SpatialFeatures), root, ArchiveName(SpatialFeatures))
    case ObjectFeatures =>
      Fetch(DownloadUrlPrefix + ArchiveName(ObjectFeatures), root, ArchiveName(ObjectFeatures))
    case Images =>
      Fetch(DownloadUrlPrefix + ArchiveName(Images), root, ArchiveName(Images))
  }

  /** Where a fetch leaves its archive: the download directory joined with the file name. */
  function Landing(f: Fetch): Path {
    Join(f.downloadRoot, f.filename)
  }

  /** Each archive is fetched to exactly the place the existence check looks at. */
  lemma FetchLandsWhereChecked(root: Path, a: Archive)
    ensures Landing(FetchOf(root, a)) == ArchivePath(root, a)
  {
  }

  /** The position of an archive in the order `download` fetches them. */
  function Rank(a: Archive): nat {
    match a
    case Questions => 0
    case SceneGraphs => 1
    case SpatialFeatures => 2
    case ObjectFeatures => 3
    case Images => 4
  }

  /** The archives `download` fetches once it has decided to: the questions archive, then
      each archive its flag requires, in the order the source tests them. */
  function FetchOrder(cfg: Settings): seq<Archive> {
    [Questions]
    + (if SceneGraphRequested(cfg) then [SceneGraphs] else [])
    + (if cfg.extractFeatures && cfg.loadSpatialFeatures then [SpatialFeatures] else [])
    + (if cfg.extractFeatures && cfg.loadObjectFeatures then [ObjectFeatures] else [])
    + (if cfg.streamImages then [Images] else [])
  }

  /** `download`, as the archives it fetches in order: nothing when the check passes. */
  function DownloadPlan(cfg: Settings, fs: set<Path>): (plan: seq<Archive>)
    ensures CheckExist(cfg, fs) ==> plan == []
    ensures !CheckExist(cfg, fs) ==> |plan| > 0 && plan[0] == Questions
  {
    if CheckExist(cfg, fs) then [] else FetchOrder(cfg)
  }

  /** The fetch order holds exactly the required archives, each once, in the fixed order
      questions, scene graphs, spatial features, object features, images. */
  lemma FetchOrderSpec(cfg: Settings)
    ensures forall a :: a in FetchOrder(cfg) <==> Required(cfg, a)
    ensures forall i, j :: 0 <= i < j < |FetchOrder(cfg)| ==>
      Rank(FetchOrder(cfg)[i]) < Rank(FetchOrder(cfg)[j])
  {
  }

  /** When the check fails, the plan holds exactly the required archives, present or not,
      each once and in the fixed order. */
  lemma DownloadPlanSpec(cfg: Settings, fs: set<Path>)
    requires !CheckExist(cfg, fs)
    ensures forall a :: a in DownloadPlan(cfg, fs) <==> Required(cfg, a)
    ensures forall i, j :: 0 <= i < j < |DownloadPlan(cfg, fs)| ==>
      Rank(DownloadPlan(cfg, fs)[i]) < Rank(DownloadPlan(cfg, fs)[j])
  {
    FetchOrderSpec(cfg);
  }

  /** The archives that land when a plan is carried out. */
  function Landed(root: Path, plan: seq<Archive>): set<Path> {
    set a | a in plan :: Landing(FetchOf(root, a))
  }

  /** Once every planned archive has landed, the existence check passes. */
  lemma DownloadCompletes(cfg: Settings, fs: set<Path>)
    ensures CheckExist(cfg, fs + Landed(cfg.root, DownloadPlan(cfg, fs)))
  {
    var plan := DownloadPlan(cfg, fs);
    var after := fs + Landed(cfg.root, plan);
    if !CheckExist(cfg, fs) {
      FetchOrderSpec(cfg);
      forall a | Required(cfg, a) ensures ArchivePath(cfg.root, a) in after {
        FetchLandsWhereChecked(cfg.root, a);
        assert a in plan;
        assert Landing(FetchOf(cfg.root, a)) in Landed(cfg.root, plan);
      }
    }
  }

  /** Which archives are fetched does not depend on which of them already exist. */
  lemma DownloadPlanIgnoresExisting(cfg: Settings, fs1: set<Path>, fs2: set<Path>)
    requires !CheckExist(cfg, fs1) && !CheckExist(cfg, fs2)
    ensures DownloadPlan(cfg, fs1) == DownloadPlan(cfg, fs2)
  {
  }
}
