/** The publish side of the integration: the data of a pyblish instance that
    the render collector and the local render extractor read and write in
    place, and the representations they attach to it. */
module Publish {
  import opened Wrappers
  import opened Host

  /** `repre["files"]`: a list of file names, or one name on its own. */
  datatype RepreFiles = FileList(names: seq<string>) | SingleFile(name: string)

  /** A representation dictionary: `name`, `ext`, `frameStart` (the first
      frame printed with the padding), `files`, `stagingDir`, and `tags`
      when the key is set. */
  datatype Representation = Representation(
    name: string,
    ext: string,
    frameStart: string,
    files: RepreFiles,
    stagingDir: string,
    tags: Option<seq<string>>)

  /** A pyblish instance. The keys the modelled plugins only read are
      constants here; `representations` (absent: `None`) and the
      `_fusionrenderlocal_has_rendered` flag (absent: `None`) are the keys
      they write. `publish`, `review` and `needThumbnail` are the truthiness
      of `data.get("publish", True)`, `data.get("review", False)` and
      `data.get("need_thumbnail", False)`; an absent `families` or
      `expectedFiles` key reads as empty. */
  class PublishInstance {
    const tool: Tool
    const publish: bool
    const families: seq<string>
    const expectedFiles: seq<string>
    const frameStart: int
    const handleStart: int
    const frameStartHandle: int
    const frameEndHandle: int
    const review: bool
    const needThumbnail: bool
    var representations: Option<seq<Representation>>
    var rendered: Option<bool>

    constructor (tool: Tool, publish: bool, families: seq<string>, expectedFiles: seq<string>,
                 frameStart: int, handleStart: int, frameStartHandle: int, frameEndHandle: int,
                 review: bool, needThumbnail: bool)
      ensures this.tool == tool && this.publish == publish && this.families == families
      ensures this.expectedFiles == expectedFiles
      ensures this.frameStart == frameStart && this.handleStart == handleStart
      ensures this.frameStartHandle == frameStartHandle && this.frameEndHandle == frameEndHandle
      ensures this.review == review && this.needThumbnail == needThumbnail
      ensures representations == None && rendered == None
    {
      this.tool := tool;
      this.publish := publish;
      this.families := families;
      this.expectedFiles := expectedFiles;
      this.frameStart := frameStart;
      this.handleStart := handleStart;
      this.frameStartHandle := frameStartHandle;
      this.frameEndHandle := frameEndHandle;
      this.review := review;
      this.needThumbnail := needThumbnail;
      representations := None;
      rendered := None;
    }

    /** `instance.data.setdefault("representations", []).append(repre)`. */
    method AddRepresentation(repre: Representation)
      modifies this`representations
      ensures representations == Some(old(representations).GetOr([]) + [repre])
    {
      representations := Some(representations.GetOr([]) + [repre]);
    }
  }

  /** `ext[1:]`: the extension without its dot (empty stays empty). */
  function Undotted(ext: string): (r: string)
    ensures |ext| >= 1 ==> ext == ext[..1] + r
    ensures ext == [] ==> r == []
  {
    if |ext| >= 1 then ext[1..] else ""
  }
}
