/** The uploaded-file reader tool: its guard chain over the upload mapping and the file
    system, both modelled as maps, and the clean-up after a successful read. */
module FileTool {
  import opened Text

  const AllowedExtensions: seq<string> :=
    [".txt", ".md", ".py", ".js", ".json", ".csv", ".html", ".css", ".yaml", ".yml", ".xml"]
  /** `max_file_size`: 1 MiB */
  const MaxFileSize: nat := 1048576

  /** A file on disk: its size in bytes and its text, `None` when it is not valid UTF-8. */
  datatype FileData = FileData(size: nat, text: Option<string>)

  /** The dict `execute` returns; every failure carries an empty `content`. */
  datatype FileReply =
    | Failure(error: string, filePath: string, fileType: string, fileSize: nat)
    | Success(filePath: string, fileType: string, fileSize: nat, content: string, fileId: string,
              formattedResult: string)

  /** `Path(p).name`: the text after the last '/'. */
  function BaseName(p: string): (name: string)
    ensures '/' !in name
    ensures |name| <= |p| && name == p[|p| - |name|..]
  {
    p[LastIndexOf(p, '/') + 1..]
  }

  /** `Path(p).suffix`: from the last '.' of the name, provided that dot neither starts nor ends the name. */
  function Suffix(p: string): (ext: string)
    ensures ext == [] || (|ext| >= 2 && ext[0] == '.' && '.' !in ext[1..] && '/' !in ext)
    ensures |ext| <= |p| && ext == p[|p| - |ext|..]
  {
    var name := BaseName(p);
    var i := LastIndexOf(name, '.');
    if 0 < i < |name| - 1 then
      TailOfTail(p, name, i);
      NoDotAfter(name, i);
      name[i..]
    else []
  }

  /** A tail of a tail of `p` is a tail of `p`. */
  lemma TailOfTail(p: string, name: string, i: nat)
    requires |name| <= |p| && name == p[|p| - |name|..] && i <= |name|
    ensures name[i..] == p[|p| - |name[i..]|..]
  {
  }

  /** After the last '.' of a name there is no '.'. */
  lemma NoDotAfter(name: string, i: nat)
    requires i < |name| && forall j :: i < j < |name| ==> name[j] != '.'
    ensures '.' !in name[i..][1..]
  {
    assert name[i..][1..] == name[i + 1..];
  }

  /** What passes all guards: the path, the lowercased extension, the size and the text. */
  datatype Accepted = Accepted(path: string, ext: string, size: nat, content: string)

  /** The guards in the order `execute` applies them: an id is given, it maps to a non-empty
      path that exists, the size is within the limit, the extension is allowed, the text decodes. */
  function Check(uploaded: map<string, string>, disk: map<string, FileData>, fileId: string): (r: Result<Accepted, FileReply>)
    ensures r.Err? ==> r.error.Failure?
    ensures r.Ok? ==> fileId in uploaded && uploaded[fileId] == r.value.path && r.value.path in disk
    ensures r.Ok? ==> r.value.size == disk[r.value.path].size <= MaxFileSize
    ensures r.Ok? ==> r.value.ext in AllowedExtensions && r.value.ext == Lower(Suffix(r.value.path))
    ensures r.Ok? ==> disk[r.value.path].text == Some(r.value.content)
  {
    if fileId == [] then Err(Failure("No file ID provided", "", "", 0))
    else if fileId !in uploaded || uploaded[fileId] == [] || uploaded[fileId] !in disk then
      Err(Failure("File not found or no longer available", "", "", 0))
    else
      var path := uploaded[fileId];
      var size := disk[path].size;
      if size > MaxFileSize then
        Err(Failure("File too large: " + NatToString(size) + " bytes (max: 1048576)", path, "", size))
      else
        var ext := Lower(Suffix(path));
        if ext !in AllowedExtensions then
          Err(Failure("File type not allowed: " + ext, path, ext, size))
        else if disk[path].text.None? then
          Err(Failure("File contains non-UTF-8 content", path, ext, size))
        else
          Ok(Accepted(path, ext, size, disk[path].text.value))
  }

  /** Every failing guard decides the message: a missing id fails first, then a missing file,
      then size, then extension, then decoding. */
  lemma CheckOrder(uploaded: map<string, string>, disk: map<string, FileData>, fileId: string)
    ensures fileId == [] ==> Check(uploaded, disk, fileId) == Err(Failure("No file ID provided", "", "", 0))
    ensures fileId != [] && (fileId !in uploaded || uploaded[fileId] !in disk) ==>
              Check(uploaded, disk, fileId).error.error == "File not found or no longer available"
    ensures fileId in uploaded && uploaded[fileId] in disk && disk[uploaded[fileId]].size > MaxFileSize && fileId != [] && uploaded[fileId] != [] ==>
              Check(uploaded, disk, fileId).error.fileSize == disk[uploaded[fileId]].size
    ensures Check(uploaded, disk, fileId).Ok? <==>
              fileId != [] && fileId in uploaded && uploaded[fileId] != [] && uploaded[fileId] in disk &&
              disk[uploaded[fileId]].size <= MaxFileSize &&
              Lower(Suffix(uploaded[fileId])) in AllowedExtensions && disk[uploaded[fileId]].text.Some?
  {
  }

  /** `formatted_result` */
  function Formatted(a: Accepted): (s: string)
    ensures StartsWith(s, "[File Content]\nFile Path: " + a.path)
    ensures |a.content| <= |s| && s[|s| - |a.content|..] == a.content
  {
    var header := "[File Content]\nFile Path: " + a.path + "\nFile Type: " + a.ext +
                  "\nFile Size: " + NatToString(a.size) + " bytes\n\n";
    assert (header + a.content)[..|"[File Content]\nFile Path: " + a.path|] == "[File Content]\nFile Path: " + a.path;
    header + a.content
  }

  /** The uploaded-file mapping and the files on disk. */
  class Uploads {
    var uploaded: map<string, string>
    var disk: map<string, FileData>

    constructor (uploaded: map<string, string>, disk: map<string, FileData>)
      ensures this.uploaded == uploaded && this.disk == disk
    {
      this.uploaded := uploaded;
      this.disk := disk;
    }

    /** `_cleanup_uploaded_file(id, path)`: removes the file when it exists and the mapping entry when present. */
    method CleanupUploadedFile(fileId: string, path: string)
      modifies this
      ensures disk == old(disk) - {path}
      ensures uploaded == old(uploaded) - {fileId}
    {
      if path in disk {
        disk := disk - {path};
      }
      if fileId in uploaded {
        uploaded := uploaded - {fileId};
      }
    }

    /** `execute(parameters)` with the upload mapping in place: a failure leaves mapping and disk
        as they were; a success returns the text and forgets both the id and the file. */
    method Execute(fileId: string) returns (r: FileReply)
      modifies this
      ensures Check(old(uploaded), old(disk), fileId).Err? ==>
                r == Check(old(uploaded), old(disk), fileId).error && uploaded == old(uploaded) && disk == old(disk)
      ensures Check(old(uploaded), old(disk), fileId).Ok? ==>
                var a := Check(old(uploaded), old(disk), fileId).value;
                r == Success(a.path, a.ext, a.size, a.content, fileId, Formatted(a)) &&
                uploaded == old(uploaded) - {fileId} && disk == old(disk) - {a.path}
    {
      var c := Check(uploaded, disk, fileId);
      if c.Err? {
        return c.error;
      }
      var a := c.value;
      CleanupUploadedFile(fileId, a.path);
      r := Success(a.path, a.ext, a.size, a.content, fileId, Formatted(a));
    }
  }

  /** `execute(parameters)` as shipped: the upload mapping is imported from the chat routes
      module, which does not define it, so every call with an id ends in the generic handler
      with the import error's message and the `file_path` parameter ("" when absent). */
  function ExecuteAsShipped(fileId: string, filePathParam: Option<string>, importError: string): (r: FileReply)
    ensures r.Failure?
    ensures fileId != [] ==> r.error == importError
  {
    if fileId == [] then Failure("No file ID provided", "", "", 0)
    else Failure(importError, if filePathParam.Some? then filePathParam.value else "", "", 0)
  }

  /** Any registered `.txt` file within the size limit that decodes is served by the
      intended tool and refused by the shipped one. */
  method ShippedToolNeverReads(fileId: string, path: string, text: string, importError: string)
    returns (intended: FileReply, shipped: FileReply)
    requires fileId != [] && path != [] && Suffix(path) == ".txt" && |text| <= MaxFileSize
    ensures intended.Success? && intended.content == text
    ensures shipped.Failure? && shipped.error == importError
  {
    var store := new Uploads(map[fileId := path], map[path := FileData(|text|, Some(text))]);
    assert Lower(".txt") == ".txt";
    intended := store.Execute(fileId);
    shipped := ExecuteAsShipped(fileId, None, importError);
  }
}
