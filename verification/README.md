# GQA dataset model

A Dafny model of the GQA visual question answering dataset class of NeMo
(`nemo/collections/vis/datasets/gqa.py`). The class covers the following steps:

- It builds a dataset object from a root directory, a split, a dataset type and five flags.
  - It may first fetch the archives the settings need.
  - It reads the image height and width from a `Resize` transform.
  - It picks the questions file of the split and the scene-graph file.
- It loads the questions file into a list of records, keeping a fixed set of fields per entry.
- It marks the first record as the exemplary sample, giving it a placeholder answer and
  question type when it has none.
- It reads one sample by index, as an eleven-field tuple.
- It collates a list of samples into a batch, one column per field.

The model has these modules:

- `Wrappers`: `Option` and `Result`.
- `Paths`: two-argument POSIX `os.path.join`.
- `GqaTypes`: decoded JSON, records, transforms, settings, errors, samples and batches.
- `GqaConfig`:
  - the questions file and loader locations;
  - the image size;
  - the archive-existence check and the download plan.
- `GqaRecords`: the field projection of `load_data` and the exemplary sample.
- `GqaSamples`: `__getitem__` and `collate_fn`.
- `GqaDataset`: the `GQA` class itself.

The class is built in three parts:

- Its constructor sets the arguments it keeps, the default dimensions and the loader
  locations. This part cannot fail.
- `Initialise` runs the steps that can raise, in the source's order.
- `Create` does the whole construction, download included.

`Initialise` and `Create` are proved against the pure function `Initialised`. The
constructor's contract states its fields outright.

`Create` takes the default arguments of `__init__`: root `~/data/gqa`, split `train`,
streamed images, the "balanced" type, all feature and scene-graph flags off, no transform,
and download on. With these defaults `extract_features` is off, so every in-range read
of a sample (of a record with an image id and a question) raises `UnboundLocalError`. `GqaSamples.GetItem` states this.

Every exception the class's own code raises is modelled as an error value:

| Python exception | Error value |
|---|---|
| `ValueError` for an unsupported dataset type or split | `UnsupportedDatasetType`, `UnsupportedSplit` |
| an absent questions file | `FileNotFound` |
| `KeyError` for a missing entry field | `MissingKey` |
| `IndexError` for an empty dataset, an index out of range or a short `Resize` size | `IndexOutOfRange` |
| `TypeError` for an integer `Resize` size | `NotSubscriptable` |
| `UnboundLocalError` when features are not extracted | `UnboundLocal` |
| `torch.stack` of no images or of missing images | `StackFailed` |

Exceptions raised inside the code the class calls are not modelled. This covers the
network, `json.load`, `Image.open` and the feature loaders (see "## Left out").

Python's negative list indices are modelled.

The docstring lists the splits as `train | val | test` and the default dataset type as
"all". The code accepts `train`, `validation`, `test` and `test-dev`, and only the
"balanced" type. The model follows the code.

## Model

| member | source | states |
|---|---|---|
| GqaConfig.QuestionFile | nemo/collections/vis/datasets/gqa.py:263-288 | It succeeds iff the split is one of the four supported splits and the type is "balanced". The file is `root/questions/<split file>`. An unsupported split raises the split ValueError, whatever the type. A supported split with another type raises the type ValueError. |
| GqaConfig.QuestionFileNamesDistinct | nemo/collections/vis/datasets/gqa.py:264-286 | The four supported splits have four different questions file names. |
| GqaConfig.QuestionFilesDistinct | nemo/collections/vis/datasets/gqa.py:263-288 | Under one root, two supported splits read the same questions file iff they are the same split. |
| GqaConfig.SceneGraphFile | nemo/collections/vis/datasets/gqa.py:251-261 | A scene-graph file is chosen iff scene graphs are requested, the split does not start with "test", and the split is train or validation. Train reads `root/sceneGraphs/train_sceneGraphs.json` and validation reads `root/sceneGraphs/val_sceneGraphs.json`. |
| GqaConfig.SceneGraphLoaderWhenNeeded | nemo/collections/vis/datasets/gqa.py:251-288 | Once the questions file is found, a scene-graph loader exists iff reading a sample will call it. |
| GqaConfig.LastResizeIsLast | nemo/collections/vis/datasets/gqa.py:230-234 | The scan of a `Compose` finds nothing iff it holds no `Resize`. Otherwise it yields the last `Resize`. |
| GqaConfig.ImageSize | nemo/collections/vis/datasets/gqa.py:201-238 | Without a selected `Resize` the size is 480x640. With one, the result is `(size[0], size[1])` of a size sequence of length at least two. An integer size raises TypeError. A shorter sequence raises IndexError at the first index it lacks. |
| GqaConfig.ImageSizeFromLastResize | nemo/collections/vis/datasets/gqa.py:223-238 | No transform, a non-`Resize` transform, or a `Compose` without a `Resize` keeps the defaults. A `Compose` takes its size from its last `Resize`. |
| GqaConfig.CheckExist | nemo/collections/vis/datasets/gqa.py:306-340 | A missing questions archive fails the check. The check passes iff every archive the flags require exists at its expected path. |
| GqaConfig.DownloadPlan | nemo/collections/vis/datasets/gqa.py:342-382 | Nothing is fetched when the check passes. Otherwise the questions archive is fetched first. |
| GqaConfig.FetchOrderSpec | nemo/collections/vis/datasets/gqa.py:348-382 | Once fetching starts, exactly the required archives are fetched, each once, in the fixed order questions, scene graphs, spatial features, object features, images. |
| GqaConfig.DownloadPlanSpec | nemo/collections/vis/datasets/gqa.py:342-382 | When the check fails, the plan is exactly the required archives, already present or not, each once and in the fixed order. |
| GqaConfig.FetchLandsWhereChecked | nemo/collections/vis/datasets/gqa.py:308-382 | Every archive is fetched into exactly the path the existence check looks at. |
| GqaConfig.DownloadCompletes | nemo/collections/vis/datasets/gqa.py:306-382 | After the planned archives land, the existence check passes. |
| GqaConfig.DownloadPlanIgnoresExisting | nemo/collections/vis/datasets/gqa.py:342-382 | Which archives are fetched does not depend on which of them already exist. |
| GqaRecords.LoadedData | nemo/collections/vis/datasets/gqa.py:384-420 | `load_data`: a missing questions file raises FileNotFound, and otherwise the result is the projection of every entry with the split's fields. A successful load has one record per entry. The ProjectAll lemmas below give the rest. |
| GqaRecords.ProjectSpec | nemo/collections/vis/datasets/gqa.py:396-417 | An entry yields a record iff it has every kept field. The record then has exactly those fields, with the entry's values. Otherwise the KeyError names the first kept field that is missing. |
| GqaRecords.ProjectAllSucceeds | nemo/collections/vis/datasets/gqa.py:389-420 | Loading succeeds iff every entry projects. The k-th record is then the k-th entry's projection. |
| GqaRecords.ProjectAllFirstError | nemo/collections/vis/datasets/gqa.py:389-420 | A failed load raises the error of the first entry that fails, and every earlier entry projects. |
| GqaRecords.ProjectAllRecords | nemo/collections/vis/datasets/gqa.py:389-420 | Every loaded record has exactly the kept fields, each with its entry's value. |
| GqaRecords.KeptFields | nemo/collections/vis/datasets/gqa.py:391-417 | The key set of a record is the set of fields kept for the split. |
| GqaRecords.LoadedDataShape | nemo/collections/vis/datasets/gqa.py:384-420 | A successful load has one record per entry, in file order. Test records have the three test fields. Every other split has the eight question fields. Each value is the entry's. |
| GqaRecords.MarkFirst | nemo/collections/vis/datasets/gqa.py:293-299 | It raises IndexError 0 iff there are no records, and only the first record can change. A first record that has an answer is kept as is. One without an answer gains the placeholder answer and types, and keeps every other field. |
| GqaRecords.ExemplaryFieldsPresent | nemo/collections/vis/datasets/gqa.py:293-304 | After loading and marking, the first record has every field the exemplary log line reads. |
| GqaSamples.GetItem | nemo/collections/vis/datasets/gqa.py:451-527 | An out-of-range index raises IndexError. Reading succeeds iff the index is in range, features are extracted, and the record has an image id and a question. A sample then carries the index, the image id and the question. Answer and type fall back to the placeholder. Optional parts are present exactly as the flags say. Each present image, feature, bounding-box, attribute or relation part is the loader's output for that record's image id. A record without an image id, or with an image id but no question, raises KeyError for that field. Without features it raises UnboundLocalError. |
| GqaSamples.ReadableReadsSucceed | nemo/collections/vis/datasets/gqa.py:462-527 | When features are extracted and every record has an image id and a question, a read succeeds iff the index is in Python's range. |
| GqaSamples.Collate | nemo/collections/vis/datasets/gqa.py:529-593 | It fails iff images are streamed and not stackable, or features are not extracted. The stack failure comes first. Otherwise, without features, it raises UnboundLocalError for `spatial_features_batch`. The main columns have one entry per sample, in order. The image column, when present, holds every sample's image in order. Each optional column is present iff its flag says so, and then holds that field of every sample, in order. |
| GqaSamples.CollateRoundTrip | nemo/collections/vis/datasets/gqa.py:529-593 | Collating samples that conform to the settings loses nothing. Row k of the batch is the k-th sample. |
| GqaSamples.CollateItems | nemo/collections/vis/datasets/gqa.py:451-593 | Collating the samples read at a list of indices gives those indices, and each record's answer or the placeholder. |
| GqaSamples.TestSplitAnswersUnknown | nemo/collections/vis/datasets/gqa.py:476-486 | Every sample read from a loaded test split has the placeholder answer and question type. |
| GqaSamples.OtherSplitAnswersFromFile | nemo/collections/vis/datasets/gqa.py:462-486 | For any other split with features extracted, every in-range read succeeds and returns the entry's own answer, type and image id. |
| GqaDataset.Initialised | nemo/collections/vis/datasets/gqa.py:223-299 | The steps of `__init__` that can raise: image size, questions file, `load_data`, exemplary sample, with the first failure ending construction. On success the dimensions are the transform's image size, the questions file was found, and there is at least one record. |
| GqaDataset.InitialisedStopsAt | nemo/collections/vis/datasets/gqa.py:223-288 | Construction raises the image-size error first, then the questions-file error. This step lemma is used by `GQA.Initialise`. |
| GqaDataset.InitialisedLoadFails | nemo/collections/vis/datasets/gqa.py:290-291 | Construction raises the error of a failed load. |
| GqaDataset.InitialisedMarkFails | nemo/collections/vis/datasets/gqa.py:293-295 | An empty questions file makes construction raise while reading the exemplary sample. |
| GqaDataset.InitialisedSucceeds | nemo/collections/vis/datasets/gqa.py:223-299 | When all four steps succeed, construction yields their results. |
| GqaDataset.InitialisedSpec | nemo/collections/vis/datasets/gqa.py:251-299 | A built dataset has a supported split and type and a scene-graph loader whenever one is used. It has at least one record, and every record has an image id and a question, so that `ReadableReadsSucceed` applies to it. |
| GqaDataset.GQA.constructor | nemo/collections/vis/datasets/gqa.py:176-261 | It keeps the arguments and sets the default 480x640x3 dimensions. It sets the image folder and the loader locations of the settings. |
| GqaDataset.GQA.SetImageSize | nemo/collections/vis/datasets/gqa.py:223-238 | The loop over a `Compose` finds the last `Resize`. The new height and width are the image size of the transform, or the method returns its error. |
| GqaDataset.GQA.LoadData | nemo/collections/vis/datasets/gqa.py:384-420 | The loop over the entries returns exactly the load result of the split's fields. |
| GqaDataset.GQA.MarkExemplary | nemo/collections/vis/datasets/gqa.py:293-299 | The new records are the marked old records, or the error with the records unchanged. |
| GqaDataset.GQA.Initialise | nemo/collections/vis/datasets/gqa.py:223-299 | It fails with the construction error, or leaves a valid object whose dimensions and records are the construction result. |
| GqaDataset.GQA.Create | nemo/collections/vis/datasets/gqa.py:146-304 | Archives are fetched only when downloading, by the download plan. It returns the construction error, or a fresh valid object. That object has those settings and that transform, depth 3, the `images` folder under the root, and the spatial, object and scene-graph locations of the settings. Its dimensions and records are the ones construction yields. Its parameters default to the values `__init__` declares. |
| Paths.JoinInjective | nemo/collections/vis/datasets/gqa.py:266-284 | Joining one directory with two relative names gives equal paths iff the names are equal. |

## Left out

- `expanduser` and `makedirs`: the root is taken as already expanded, and directory
  creation has no effect on what the class computes. The default root `~/data/gqa` is
  therefore kept literally.
- The network: `download_and_extract_archive` is modelled as the list of archives fetched,
  with the URL, download directory and file name of each call. Its failures and the archive
  contents are not modelled.
- `json.load`: a questions file is given already decoded, as its (question id, entry) pairs
  in file order, with object entries only. Non-integer JSON numbers are not distinguished.
- `Image.open`, the transforms themselves and `get_image`: images are opaque values produced
  by a loader parameter. A missing image file is not modelled.
- The spatial, object and scene-graph feature loaders: they are opaque loader parameters.
  Their vocabulary files and object count are not modelled.
- `torch.stack` on images of different shapes, and the `FloatTensor` conversion: images are
  opaque, so only the empty or missing-image failures are modelled.
- Logging, including the exemplary-sample log line. Only the lookups it depends on are
  modelled, by `ExemplaryFieldsPresent`.
- Key order inside a record: records are maps, so dict insertion order is not kept.
- `__len__`: it is the length of the records, which the model states directly.
- The class attributes `zip_names` and `features_names` are constants of the model, not
  fields.
- The machine-translation inference script `translate_ddp.py` is not part of this model.
  It is separate command-line glue, with no logic shared with the dataset class.
- GqaDataset.GQA.SetImageSize: it requires the default dimensions on entry, as the
  constructor leaves them. It does not state the height left behind by a size sequence of
  length one.
