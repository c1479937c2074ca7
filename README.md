# MetaDataZaKo in Dafny

A model of the `MetaDataZaKo` node, a plugin for a node-graph image
generation host. On each run the node does three things:

1. It traces the host's graph description (`prompt`) upstream from its own
   `workflow` input. The walk passes through `Reroute` nodes by following each
   one's first input. It stops at a `LoadImage`, `LoadImageMask` or
   `Load Image` node, or gives up after 50 lookups.
2. It opens that node's image and copies every text chunk whose key is
   `workflow`, `prompt` or contains `comfy`, in order, into a fresh metadata
   container. `has_meta` is true only if at least one chunk was copied.
3. It saves every frame of the batch as `{filename}_{counter:05}_.png` with
   that container attached. It returns one `{filename, subfolder, type}` record
   per frame whose write succeeded. The counter advances only after a
   successful write.

Modules, one per component of the run:

- `Wrappers` (wrappers.dfy): `Option` and `Result`.
- `Graph` (graph.dfy): the graph description. A node record is `Null` or a
  dict with an optional `class_type`, optional ordered `inputs` and possibly
  other keys. An input value is a `Link(id)`, an empty list or a literal.
- `Trace` (trace.dfy): `Walk` is the specification of the walk.
  `TraceUpstream` is `run`'s loop as written, proved equal to
  `Walk(g, start, 50)`. `Resolve` covers the whole tracing phase, starting from
  the node's own record. The lemmas cover Reroute chains, cycles and the cap.
- `Metadata` (metadata.dfy): the key predicate and `KeptEntries`, the filter
  as a function. `ExtractMetadata` is the accumulation loop, proved equal to
  it.
- `Naming` (naming.dfy): `Pad5` (Python's `{n:05}`) and `FileName`. A parser
  reads the counter back out of a file name, which gives injectivity.
- `Save` (save.dfy): `SaveBatch`, the per-frame save loop.
- `ZaKo` (zako.dfy): the class `MetaDataZaKo` with `Run`. `Run` is built from
  `TracePhase`, `ExtractPhase` and `SaveBatch`. The module also holds the
  lemmas about when the container is non-empty.

Host collaborators become inputs:

- The file layer is a map from image name to `Unreadable | Readable(info)`.
  It stands for `get_annotated_filepath`, `os.path.exists` and `Image.open`.
- Each frame's conversion-and-write outcome is a boolean.
- The save-path allocator's result (`filename`, `counter`, `subfolder`) is a
  parameter.

Behaviour of `run` the model keeps:

- A failed frame produces no record and consumes no counter value.
- An empty batch makes `image[0]` raise outside any handler, so the run does
  not return a UI result. This is modelled as `Err(EmptyBatch)`.
- The reasons a trace fails are not reported separately:
  - a dangling id and a `None` or empty record end the walk silently;
  - a broken Reroute and an unknown type share one message;
  - running out of the 50 lookups is silent.
- The `Reason` datatype has one case per exit path of `run`'s tracing code.
- A missing or `None` own record, and a Reroute whose first input is an empty
  list, raise. The outer handler catches the error and the run continues
  without metadata. This is modelled as `NotFound(Raised)`.

## Model

| member | source | states |
|---|---|---|
| Graph.ClassTypeOf | MetaDataZaKo.py:76 | an absent `class_type` reads as "Unknown", so it is never taken for a load-image or Reroute node |
| Graph.Lookup | MetaDataZaKo.py:64 | `inputs.get(key)`: none exactly when no port has that name, else the value of the first port so named |
| Trace.IsLoadImage | MetaDataZaKo.py:79 | a load-image node has a `class_type` that is one of the three load-image types, so its record is not falsy |
| Trace.Walk | MetaDataZaKo.py:72-92 | whatever the walk finds is a graph entry reached by it whose type is one of the three load-image types; a failed walk never reports an unconnected port |
| Trace.TraceUpstream | MetaDataZaKo.py:69-92 | the loop with break/continue computes exactly `Walk(g, start, 50)` and does between 1 and 50 lookups |
| Trace.OwnWorkflowInput | MetaDataZaKo.py:63-64 | the own `workflow` input is absent exactly when no own input port is named `workflow`, and always when the record has no `inputs` |
| Trace.Resolve | MetaDataZaKo.py:62-92 | a found node implies a truthy prompt and unique_id, and is a load-image entry of the prompt |
| Trace.ChainResolves | MetaDataZaKo.py:79-89 | a chain of at most 49 Reroutes, each with a link as first input, ending in a load-image node resolves to that node |
| Trace.FoundViaChain | MetaDataZaKo.py:72-89 | conversely, every found node ends such a Reroute chain from the start that fits within the lookups |
| Trace.LongChainExhausts | MetaDataZaKo.py:72 | a Reroute chain longer than the remaining lookups ends with the cap exhausted and no node |
| Trace.RerouteCycleExhausts | MetaDataZaKo.py:72-89 | on any set of Reroutes linking only into itself (any Reroute cycle) the walk terminates with no node |
| Trace.SelfRerouteExhausts | MetaDataZaKo.py:83-89 | a Reroute whose first input links to itself yields no node |
| Trace.WalkStops | MetaDataZaKo.py:73-92 | a dangling or empty record (`IsFalsy`: `None` or the empty dict, line 74), an unknown type, and a Reroute with no inputs (`InputsOf`: `.get('inputs', {})`) or whose first input (`FirstInput`: `list(inputs.values())[0]`) is not a link each end the walk with no node |
| Trace.NoLinkNoTrace | MetaDataZaKo.py:63-67 | a falsy prompt or unique_id (`PromptGiven`, `IdGiven`: present and non-empty), or an own `workflow` input that is absent or not a link, skips the walk |
| Metadata.HasSubstringIff | MetaDataZaKo.py:106 | the recursive substring test agrees with "occurs at some position" |
| Metadata.KeptEntries | MetaDataZaKo.py:104-108 | at most as many chunks as the input, each from the input and with a metadata key |
| Metadata.KeptComplete | MetaDataZaKo.py:105-107 | every chunk whose key is "workflow", "prompt" or contains "comfy" is kept |
| Metadata.KeptAppend | MetaDataZaKo.py:105-107 | filtering distributes over concatenation, so kept chunks keep their original order |
| Metadata.ExtractMetadata | MetaDataZaKo.py:103-108 | the loop's container equals the filtered chunks and `count` is their number |
| Metadata.FilterExample | MetaDataZaKo.py:105-107 | workflow, prompt, comfy_extra, other keeps the first three in order |
| Naming.Pad5 | MetaDataZaKo.py:138 | the padded counter has at least five characters, all digits |
| Naming.Pad5Value | MetaDataZaKo.py:138 | the padded counter read as a decimal number is the counter |
| Naming.Pad5Width | MetaDataZaKo.py:138 | counters below 100000 are padded to exactly five characters |
| Naming.FileName | MetaDataZaKo.py:138 | a file name is at least 11 characters longer than its base |
| Naming.FileNameRoundTrip | MetaDataZaKo.py:138 | the counter can be parsed back out of a file name |
| Naming.FileNameInjective | MetaDataZaKo.py:138 | distinct counters give distinct file names |
| Save.DistinctNames | MetaDataZaKo.py:138-148 | records named with consecutive counters have pairwise distinct names |
| Save.SaveBatch | MetaDataZaKo.py:132-150 | one record per successful frame, at most the batch size; record j is named with counter start+j; the next counter is start plus the number saved; names pairwise distinct |
| ZaKo.SourceMetadata | MetaDataZaKo.py:95-112 | the container is non-empty only when a node was found, and every chunk in it has a metadata key |
| ZaKo.HasMetaIff | MetaDataZaKo.py:95-114 | the container is non-empty exactly when a node was found, its file (`SourceFile`) exists and opens, and one of its chunks has a metadata key |
| ZaKo.ContainerFromSource | MetaDataZaKo.py:95-108 | a non-empty container means a load-image node was found whose literal `image` input (`ImageInput`, `inputs.get('image')`) names a readable file (`SourceFile`), and every chunk comes from that file's chunks and has a metadata key |
| ZaKo.NoLinkNoMetadata | MetaDataZaKo.py:63-67 | without a link to trace the container is empty |
| ZaKo.TracePhase | MetaDataZaKo.py:62-92 | the tracing code computes exactly `Resolve(prompt, unique_id)` |
| ZaKo.ExtractPhase | MetaDataZaKo.py:95-112 | the extraction code yields exactly the container of `SourceMetadata`, and `has_meta` iff it is non-empty |
| ZaKo.MetaDataZaKo.constructor | MetaDataZaKo.py:17-19 | keeps the output directory; records are typed "output" |
| ZaKo.MetaDataZaKo.Run | MetaDataZaKo.py:40-157 | the container is the filtered chunks of the traced source image; `has_meta` iff it is non-empty; an empty batch is an error; otherwise one record per successful frame, named with consecutive counters |

## Left out

- Image codec: reading chunks and writing PNGs with `PngInfo` are left out. The container is modelled as the list of pairs passed to every save. Chunk encoding, `compress_level` and the reopen-after-save round trip are not modelled.
- Tensor conversion: the `255 * x` clip to `uint8` is floating-point numerics. Its only effect here is whether a frame saves, which is an input flag.
- Host path helpers: `get_output_directory`, `get_annotated_filepath`, `get_save_image_path`, `os.path.exists` and `os.path.join` are host I/O. They are given as the `files` map, `outputDir` and the `SavePath` parameter.
- Image name: only a literal `image` input is looked up. Any other value is treated as a missing file.
- `str(v)`: chunk values are taken as already-converted strings.
- Logging, `time.sleep`, `INPUT_TYPES` and the registration dictionaries are left out. They are I/O, timing or host registration only.
- Other exceptions: any other exception the outer handler might catch is not modelled, for example from `get_annotated_filepath` or a non-string node id. Node ids are strings.
- Counter sign: the counter is a natural number, as the host allocates it. Python's formatting of negative counters is not modelled.
- Trace.TraceUpstream: the number of lookups is stated only as between 1 and 50, not as the exact number of nodes visited.
- ZaKo.MetaDataZaKo.Run: it does not say which input frame each record came from, only how many records there are and their names.
