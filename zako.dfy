/**
 The MetaDataZaKo node: trace upstream to the load-image node, copy its
 image's workflow/prompt/comfy text chunks, and save every frame of the
 batch with those chunks attached.
 */
module ZaKo {
  import opened Wrappers
  import opened Graph
  import opened Trace
  import opened Metadata
  import opened Naming
  import opened Save

  /** An image file as the host's file layer presents it: it exists and either
      fails to open or opens with its text chunks in container order. */
  datatype SourceImage = Unreadable | Readable(info: seq<Entry>)

  /** What the host's save-path allocator hands back for a prefix. */
  datatype SavePath = SavePath(folder: string, filename: string, counter: nat, subfolder: string)

  /** The one failure the run lets escape: indexing the first frame of an empty batch. */
  datatype RunError = EmptyBatch

  /** The name in a node's `image` input, when it is a literal. */
  function ImageInput(ins: Inputs): Option<string> {
    match Lookup(ins, "image")
    case Some(Literal(name)) => Some(name)
    case _ => None
  }

  /** The existing file named by a found node's `image` input, if any; `files`
      holds the files the host can resolve, by annotated image name. */
  function SourceFile(node: NodeObj, files: map<string, SourceImage>): Option<SourceImage> {
    if node.Obj? && node.inputs.Some? then
      match ImageInput(node.inputs.value)
      case Some(name) => if name in files then Some(files[name]) else None
      case None => None
    else None
  }

  /** The metadata container attached to every saved frame, given the trace outcome. */
  function SourceMetadata(t: Outcome, files: map<string, SourceImage>): (r: seq<Entry>)
    ensures r != [] ==> t.Found?
    ensures forall e :: e in r ==> IsMetadataKey(e.0)
  {
    if t.Found? then
      match SourceFile(t.node, files)
      case Some(Readable(info)) => KeptEntries(info)
      case _ => []
    else []
  }

  /** The container holds chunks only when a node was found, its file exists
      and opens, and at least one of its chunks has a metadata key. */
  lemma HasMetaIff(t: Outcome, files: map<string, SourceImage>)
    ensures SourceMetadata(t, files) != [] <==>
            t.Found? && SourceFile(t.node, files).Some? && SourceFile(t.node, files).value.Readable? &&
            exists e :: e in SourceFile(t.node, files).value.info && IsMetadataKey(e.0)
  {
    if t.Found? && SourceFile(t.node, files).Some? && SourceFile(t.node, files).value.Readable? {
      var info := SourceFile(t.node, files).value.info;
      if e :| e in info && IsMetadataKey(e.0) {
        KeptComplete(info, e);
      }
      if KeptEntries(info) != [] {
        assert KeptEntries(info)[0] in KeptEntries(info);
      }
    }
  }

  /** Every chunk in the container was read from the file named by the found
      load-image node's `image` input, and has a metadata key. */
  lemma ContainerFromSource(prompt: Option<Graph>, uid: Option<NodeId>, files: map<string, SourceImage>)
    ensures var t := Resolve(prompt, uid);
            SourceMetadata(t, files) != [] ==>
              t.Found? && IsLoadImage(t.node) && t.node.inputs.Some? &&
              ImageInput(t.node.inputs.value).Some? &&
              ImageInput(t.node.inputs.value).value in files &&
              files[ImageInput(t.node.inputs.value).value].Readable? &&
              forall e :: e in SourceMetadata(t, files) ==>
                e in files[ImageInput(t.node.inputs.value).value].info && IsMetadataKey(e.0)
  {
    var t := Resolve(prompt, uid);
    if SourceMetadata(t, files) != [] {
      var info := files[ImageInput(t.node.inputs.value).value].info;
      assert SourceMetadata(t, files) == KeptEntries(info);
    }
  }

  /** Without a link to trace, the container stays empty and `has_meta` false. */
  lemma NoLinkNoMetadata(prompt: Option<Graph>, uid: Option<NodeId>, files: map<string, SourceImage>)
    requires !PromptGiven(prompt) || !IdGiven(uid) ||
             (uid.value in prompt.value && prompt.value[uid.value].Obj? &&
              !(OwnWorkflowInput(prompt.value, uid.value).Some? &&
                OwnWorkflowInput(prompt.value, uid.value).value.Link?))
    ensures SourceMetadata(Resolve(prompt, uid), files) == []
  {
    NoLinkNoTrace(prompt, uid);
  }

  /** The tracing phase of `run`: read the own `workflow` input, then walk. */
  method TracePhase(prompt: Option<Graph>, uniqueId: Option<NodeId>) returns (traced: Outcome)
    ensures traced == Resolve(prompt, uniqueId)
  {
    traced := NotFound(Unconnected);
    if PromptGiven(prompt) && IdGiven(uniqueId) {
      var g := prompt.value;
      if uniqueId.value !in g || g[uniqueId.value].Null? {
        traced := NotFound(Raised);
      } else {
        var currentLink := Lookup(InputsOf(g[uniqueId.value]), "workflow");
        if currentLink.Some? && currentLink.value.Link? {
          var lookups;
          traced, lookups := TraceUpstream(g, currentLink.value.id);
        }
      }
    }
  }

  /** The extraction phase of `run`: filter the chunks of the found node's
      file, only when it exists and opens. */
  method ExtractPhase(traced: Outcome, files: map<string, SourceImage>)
    returns (container: seq<Entry>, hasMeta: bool)
    ensures container == SourceMetadata(traced, files)
    ensures hasMeta <==> container != []
  {
    container, hasMeta := [], false;
    if traced.Found? {
      var source := SourceFile(traced.node, files);
      if source.Some? && source.value.Readable? {
        var count;
        container, count := ExtractMetadata(source.value.info);
        hasMeta := count > 0;
      }
    }
  }

  class MetaDataZaKo {
    /** The host's output directory; only the host's save-path allocator uses it. */
    const outputDir: string
    /** The `type` field of every result record. */
    const kind: string

    constructor (outputDir: string)
      ensures this.outputDir == outputDir && kind == "output"
    {
      this.outputDir := outputDir;
      kind := "output";
    }

    /** One invocation. `frames[i]` says whether frame `i` converts and writes
        successfully; `alloc` is the host's save path for the prefix. Returns
        the UI records, the container written into every frame and `has_meta`. */
    method Run(prompt: Option<Graph>, uniqueId: Option<NodeId>, files: map<string, SourceImage>,
               frames: seq<bool>, alloc: SavePath)
      returns (result: Result<seq<SaveRecord>, RunError>, container: seq<Entry>, hasMeta: bool)
      ensures container == SourceMetadata(Resolve(prompt, uniqueId), files)
      ensures hasMeta <==> container != []
      ensures result.Err? <==> frames == []
      ensures result.Ok? ==> |result.value| == CountTrue(frames)
      ensures result.Ok? ==>
                forall j :: 0 <= j < |result.value| ==>
                  result.value[j] == SaveRecord(FileName(alloc.filename, alloc.counter + j), alloc.subfolder, kind)
    {
      var traced := TracePhase(prompt, uniqueId);
      container, hasMeta := ExtractPhase(traced, files);

      // Saving: the first frame's shape is read outside any handler.
      if frames == [] {
        result := Err(EmptyBatch);
        return;
      }
      var records, next := SaveBatch(alloc.filename, alloc.subfolder, kind, alloc.counter, frames);
      result := Ok(records);
    }
  }
}
