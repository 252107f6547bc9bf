/** The values the GQA dataset class works on: decoded JSON, records, transforms, the
    dataset's settings, its errors, one sample and one collated batch. */
module GqaTypes {
  import opened Wrappers
  import opened Paths

  /** A decoded JSON value (numbers other than integers are not distinguished). */
  datatype Json =
    | JNull
    | JBool(b: bool)
    | JNumber(n: int)
    | JString(s: string)
    | JArray(elems: seq<Json>)
    | JObject(members: seq<(string, Json)>)

  /** One question entry of a questions file, keyed by field name. */
  type Entry = map<string, Json>

  /** The fields kept of one entry: the dataset holds a list of these. */
  type Record = map<string, Json>

  /** A questions file as decoded: question id and entry, in file order. */
  type QuestionItems = seq<(string, Entry)>

  /** The placeholder for an answer or a question type that the data does not give. */
  const Unknown: Json := JString("<UNK>")

  /** An image, a feature tensor or a bounding-box tensor, produced by a loader whose
      workings are not part of this model. */
  datatype Blob = Blob(id: nat)

  /** The `size` stored in a torchvision `Resize`: a single edge length or a sequence. */
  datatype ResizeSize = Edge(n: int) | Dims(dims: seq<int>)

  /** An image transform, as far as the dataset inspects it. */
  datatype Transform =
    | Resize(size: ResizeSize)
    | Compose(transforms: seq<Transform>)
    | OtherTransform(name: string)

  /** The constructor arguments the dataset keeps (root taken as already user-expanded). */
  datatype Settings = Settings(
    root: Path,
    split: string,
    streamImages: bool,
    datasetType: string,
    extractFeatures: bool,
    loadSpatialFeatures: bool,
    loadObjectFeatures: bool,
    loadSceneGraph: bool)

  /** The exceptions the dataset code can raise. */
  datatype GqaError =
    | UnsupportedDatasetType(datasetType: string)   // ValueError
    | UnsupportedSplit(split: string)                // ValueError
    | FileNotFound(path: Path)                       // from open()
    | MissingKey(key: string)                        // KeyError
    | IndexOutOfRange(index: int)                    // IndexError
    | NotSubscriptable                               // TypeError: an int Resize size indexed
    | UnboundLocal(name: string)                     // UnboundLocalError
    | StackFailed                                    // torch.stack of no tensors or of None

  /** The eleven-field tuple returned for one index. */
  datatype Sample = Sample(
    index: int,
    imageId: Json,
    image: Option<Blob>,
    question: Json,
    answer: Json,
    questionType: Json,
    spatialFeatures: Option<Blob>,
    objFeatures: Option<Blob>,
    objNormalizedBbox: Option<Blob>,
    objAttributes: Option<Blob>,
    objRelations: Option<Blob>)

  /** The eleven-field tuple of per-field columns returned for a list of samples. */
  datatype Batch = Batch(
    indices: seq<int>,
    imageIds: seq<Json>,
    images: Option<seq<Blob>>,
    questions: seq<Json>,
    answers: seq<Json>,
    questionTypes: seq<Json>,
    spatialFeatures: Option<seq<Option<Blob>>>,
    objFeatures: Option<seq<Option<Blob>>>,
    objNormalizedBbox: Option<seq<Option<Blob>>>,
    objAttributes: Option<seq<Option<Blob>>>,
    objRelations: Option<seq<Option<Blob>>>)

  /** What the image reader and the three feature loaders return for an image id. */
  datatype Loaders = Loaders(
    image: Json -> Blob,
    spatial: Json -> Blob,
    objects: Json -> (Blob, Blob),
    sceneGraph: Json -> (Blob, Blob))
}
