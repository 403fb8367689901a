/** The sandboxed file access the agent's file module calls: every path
    argument is resolved against a base directory and refused when it tries to
    climb out of it; writes always land directly in the `AI_Workspace` folder.
    The disk is a map from full paths to bytes plus the directory listings;
    the library services the code relies on (path canonicalisation, text and
    .docx decoding, image loading and rescaling, size formatting) are the
    abstract functions of a `Platform`. Paths follow Windows rules. */
module FileTools {
  import opened Text
  import opened Base64
  import ImageMarker

  const AiOutputFolder: string := "AI_Workspace"
  const DirectorySeparator: char := '\\'
  const MaxDimension: nat := 1024
  const MaxFileSizeBytes: nat := 10 * 1024 * 1024
  const MaxTreeDepth: nat := 3
  const IllegalCharactersMessage: string := "Illegal characters in path."
  const EmptyFolderNote: string := "(此資料夾是空的)"
  const UnsupportedFormatMessage: string := "不支援的檔案格式或禁止存取。"
  const OctetStream: string := "application/octet-stream"

  /** The byte-order mark `Encoding.UTF8` writes at the start of a new text file. */
  const Utf8Preamble: seq<Byte> := [0xEF, 0xBB, 0xBF]

  // ---------------------------------------------------------------- paths

  /** The directory, alternate directory and volume separators. */
  predicate IsSeparator(c: char) {
    c == '\\' || c == '/' || c == ':'
  }

  /** The characters the path functions refuse with an `ArgumentException`. */
  predicate IsInvalidPathChar(c: char) {
    c == '"' || c == '<' || c == '>' || c == '|' || c < ' '
  }

  predicate HasInvalidPathChars(path: string) {
    exists i :: 0 <= i < |path| && IsInvalidPathChar(path[i])
  }

  /** `Path.IsPathRooted`: a leading slash or a drive letter. */
  predicate IsPathRooted(path: string) {
    (|path| >= 1 && (path[0] == '\\' || path[0] == '/')) || (|path| >= 2 && path[1] == ':')
  }

  /** `Path.Combine(path1, path2)`: a rooted second path replaces the first. */
  function Combine(path1: string, path2: string): (r: Result<string, string>)
    ensures r.Err? <==> HasInvalidPathChars(path1) || HasInvalidPathChars(path2)
    ensures r.Ok? && IsPathRooted(path2) ==> r.value == path2
    ensures r.Ok? && |path1| > 0 && |path2| > 0 && !IsPathRooted(path2) ==>
              StartsWith(r.value, path1) && EndsWith(r.value, path2)
              && |path1| + |path2| <= |r.value| <= |path1| + |path2| + 1
  {
    if HasInvalidPathChars(path1) || HasInvalidPathChars(path2) then Err(IllegalCharactersMessage)
    else if |path2| == 0 then Ok(path1)
    else if |path1| == 0 then Ok(path2)
    else if IsPathRooted(path2) then Ok(path2)
    else if IsSeparator(path1[|path1| - 1]) then Ok(path1 + path2)
    else Ok(path1 + [DirectorySeparator] + path2)
  }

  /** `Path.GetFileName`: the part after the last separator. */
  function GetFileName(path: string): (name: string)
    ensures |name| <= |path| && EndsWith(path, name)
    ensures forall i :: 0 <= i < |name| ==> !IsSeparator(name[i])
    ensures |name| < |path| ==> IsSeparator(path[|path| - |name| - 1])
  {
    if |path| == 0 || IsSeparator(path[|path| - 1]) then ""
    else
      var name := GetFileName(path[..|path| - 1]) + [path[|path| - 1]];
      assert path[..|path| - 1][|path| - |name|..] + [path[|path| - 1]] == path[|path| - |name|..];
      name
  }

  function LastIndexOfChar(s: string, c: char): (r: int)
    ensures -1 <= r < |s|
    ensures r >= 0 ==> s[r] == c
    ensures forall j :: r < j < |s| ==> s[j] != c
  {
    if |s| == 0 then -1
    else if s[|s| - 1] == c then |s| - 1
    else
      var r := LastIndexOfChar(s[..|s| - 1], c);
      assert forall j :: r < j < |s| - 1 ==> s[j] == s[..|s| - 1][j];
      r
  }

  /** `Path.GetExtension`: from the last dot of the file name, or empty when
      the name has no dot or ends with one. */
  function GetExtension(path: string): (ext: string)
    ensures var name := GetFileName(path);
      ext == "" <==> (forall i :: 0 <= i < |name| ==> name[i] != '.') || (|name| > 0 && name[|name| - 1] == '.')
    ensures ext != "" ==> |ext| >= 2 && ext[0] == '.' && EndsWith(path, ext)
    ensures forall i :: 0 <= i < |ext| ==> !IsSeparator(ext[i]) && (i > 0 ==> ext[i] != '.')
  {
    var name := GetFileName(path);
    var dot := LastIndexOfChar(name, '.');
    LastDot(name, dot);
    if dot < 0 || dot == |name| - 1 then ""
    else
      ExtensionChars(name, dot);
      SuffixOfSuffix(path, name, dot);
      name[dot..]
  }

  /** Where the last dot of a name is says whether the name has a dot and
      whether it ends with one. */
  lemma LastDot(name: string, dot: int)
    requires dot == LastIndexOfChar(name, '.')
    ensures dot < 0 <==> forall i :: 0 <= i < |name| ==> name[i] != '.'
    ensures 0 <= dot == |name| - 1 <==> |name| > 0 && name[|name| - 1] == '.'
  {
    if dot >= 0 {
      assert name[dot] == '.';
    }
    if |name| > 0 {
      assert dot < |name| - 1 ==> name[|name| - 1] != '.';
    }
  }

  /** The text from the last dot of a separator-free name on holds no
      separator and no further dot. */
  lemma ExtensionChars(name: string, dot: int)
    requires 0 <= dot < |name| - 1 && dot == LastIndexOfChar(name, '.')
    requires forall i :: 0 <= i < |name| ==> !IsSeparator(name[i])
    ensures |name[dot..]| >= 2 && name[dot..][0] == '.'
    ensures forall i :: 0 <= i < |name[dot..]| ==> !IsSeparator(name[dot..][i]) && (i > 0 ==> name[dot..][i] != '.')
  {
    var ext := name[dot..];
    forall i | 0 <= i < |ext|
      ensures !IsSeparator(ext[i]) && (i > 0 ==> ext[i] != '.')
    {
      assert ext[i] == name[dot + i];
    }
  }

  lemma SuffixOfSuffix(path: string, name: string, start: nat)
    requires EndsWith(path, name) && start <= |name|
    ensures EndsWith(path, name[start..])
  {
    assert path[|path| - |name[start..]|..] == path[|path| - |name|..][start..];
  }

  // ---------------------------------------------------------------- platform and disk

  /** What image loading reports: the original size, and the size and the PNG
      and JPEG encodings of the copy drawn to fit 1024 pixels. */
  datatype Picture = Picture(
    width: nat, height: nat,
    scaledWidth: nat, scaledHeight: nat,
    scaledPng: seq<Byte>, scaledJpeg: seq<Byte>)

  /** The library services the file tools call. */
  datatype Platform = Platform(
    canonicalize: string -> Result<string, string>,   // Path.GetFullPath
    formatSize: nat -> string,                        // FormatSize
    decodeText: seq<Byte> -> string,                  // File.ReadAllText(path, Encoding.UTF8)
    extractDocx: seq<Byte> -> string,                 // ReadDocxText
    loadImage: seq<Byte> -> Result<Picture, string>,  // Image.FromFile and the rescaling
    encodeUtf8: string -> seq<Byte>)                  // Encoding.UTF8.GetBytes

  /** One entry of a directory listing: a folder with its own listing, or a file. */
  datatype Node =
    | DirNode(name: string, created: string, listing: Listing)
    | FileNode(name: string, length: nat, modified: string)

  /** What enumerating a directory gives. */
  datatype Listing =
    | Entries(nodes: seq<Node>)
    | AccessDenied
    | Failed(message: string)

  /** File contents by full path, and directory listings by full path. */
  datatype Disk = Disk(files: map<string, seq<Byte>>, dirs: map<string, Listing>)

  datatype FileTools = FileTools(baseDirectory: string, platform: Platform)

  /** The object invariant the constructor establishes. */
  predicate Valid(tools: FileTools) {
    EndsWith(tools.baseDirectory, [DirectorySeparator])
  }

  /** `path`, with the directory separator appended unless it already ends with it. */
  function WithTrailingSeparator(path: string): (r: string)
    ensures EndsWith(r, [DirectorySeparator]) && StartsWith(r, path)
    ensures EndsWith(path, [DirectorySeparator]) ==> r == path
    ensures !EndsWith(path, [DirectorySeparator]) ==> r == path + [DirectorySeparator]
  {
    if EndsWith(path, [DirectorySeparator]) then path else path + [DirectorySeparator]
  }

  /** The separator is appended at most once: normalising twice changes nothing. */
  lemma WithTrailingSeparatorIdempotent(path: string)
    ensures WithTrailingSeparator(WithTrailingSeparator(path)) == WithTrailingSeparator(path)
    ensures |WithTrailingSeparator(path)| <= |path| + 1
  {
  }

  /** The constructor: the canonical form of the given base directory (the
      application's own directory when none is given), ending with the
      separator; a canonicalisation failure is the exception it throws. */
  function New(baseDirectory: Option<string>, applicationBase: string, platform: Platform): (r: Result<FileTools, string>)
    ensures r.Ok? ==> Valid(r.value) && r.value.platform == platform
    ensures var requested := if baseDirectory.Some? then baseDirectory.value else applicationBase;
      match platform.canonicalize(requested)
      case Err(message) => r == Err(message)
      case Ok(full) => r.Ok? && StartsWith(r.value.baseDirectory, full) && |r.value.baseDirectory| <= |full| + 1
  {
    var requested := if baseDirectory.Some? then baseDirectory.value else applicationBase;
    match platform.canonicalize(requested)
    case Err(message) => Err(message)
    case Ok(full) => Ok(FileTools(WithTrailingSeparator(full), platform))
  }

  /** `Path.GetFullPath(Path.Combine(baseDirectory, argument))`. */
  function Resolve(tools: FileTools, argument: string): Result<string, string> {
    match Combine(tools.baseDirectory, argument)
    case Err(message) => Err(message)
    case Ok(combined) => tools.platform.canonicalize(combined)
  }

  /** The prefix check every resolved path must pass. */
  predicate InsideBase(tools: FileTools, path: string) {
    StartsWithIgnoreCase(path, tools.baseDirectory)
  }

  // ---------------------------------------------------------------- listing

  /** The one line of a directory entry, indented for its depth. */
  function NodeLine(tools: FileTools, node: Node, depth: nat): string {
    Spaces(depth * 4) + NodeTail(tools, node)
  }

  /** The line of one entry after its indentation: a tag, then the entry. */
  function NodeTail(tools: FileTools, node: Node): (tail: string)
    ensures |tail| > 0 && tail[0] == '['
  {
    match node
    case DirNode(name, created, _) => "[DIR]  " + (name + " (Created: " + created + ")")
    case FileNode(name, length, modified) =>
      "[FILE] " + (PadRight(name, 30) + " | " + PadLeft(tools.platform.formatSize(length), 8) + " | Mod: " + modified)
  }

  /** The lines `BuildTree` appends for a listing at `depth`. */
  function TreeLines(tools: FileTools, listing: Listing, depth: nat, maxDepth: nat): seq<string>
    decreases listing, 1, 0
  {
    if depth >= maxDepth then []
    else
      match listing
      case AccessDenied => [Spaces(depth * 4) + "[存取被拒絕]"]
      case Failed(message) => [Spaces(depth * 4) + "[錯誤: " + message + "]"]
      case Entries(nodes) =>
        NodesLines(tools, listing, 0, depth, maxDepth)
        + (if |nodes| == 0 && depth == 0 then [EmptyFolderNote] else [])
  }

  /** The lines of the entries of `listing` from index `i` on. */
  function NodesLines(tools: FileTools, listing: Listing, i: nat, depth: nat, maxDepth: nat): seq<string>
    requires listing.Entries? && i <= |listing.nodes|
    decreases listing, 0, |listing.nodes| - i
  {
    if i == |listing.nodes| then []
    else
      var node := listing.nodes[i];
      var own := [NodeLine(tools, node, depth)]
        + (if node.DirNode? then TreeLines(tools, node.listing, depth + 1, maxDepth) else []);
      own + NodesLines(tools, listing, i + 1, depth, maxDepth)
  }

  /** A line written at depth `k`: `4 * k` spaces, then a bracketed tag, or the
      empty-folder note, which only the top level writes. */
  predicate IndentedAt(line: string, k: nat) {
    4 * k < |line| && line[..4 * k] == Spaces(4 * k)
    && (line[4 * k] == '[' || (k == 0 && line[0] == '('))
  }

  /** A line written at some depth from `depth` up to, not including, `maxDepth`. */
  predicate LineWithin(line: string, depth: nat, maxDepth: nat) {
    exists k: nat :: depth <= k < maxDepth && IndentedAt(line, k)
  }

  predicate Shaped(lines: seq<string>, depth: nat, maxDepth: nat) {
    forall j :: 0 <= j < |lines| ==> LineWithin(lines[j], depth, maxDepth)
  }

  lemma ShapedAppend(a: seq<string>, b: seq<string>, depth: nat, maxDepth: nat)
    requires Shaped(a, depth, maxDepth) && Shaped(b, depth, maxDepth)
    ensures Shaped(a + b, depth, maxDepth)
  {
    forall j | 0 <= j < |a + b|
      ensures LineWithin((a + b)[j], depth, maxDepth)
    {
      if j < |a| {
        assert (a + b)[j] == a[j];
      } else {
        assert (a + b)[j] == b[j - |a|];
      }
    }
  }

  lemma ShapedDeeper(lines: seq<string>, depth: nat, maxDepth: nat)
    requires Shaped(lines, depth + 1, maxDepth)
    ensures Shaped(lines, depth, maxDepth)
  {
    forall j | 0 <= j < |lines|
      ensures LineWithin(lines[j], depth, maxDepth)
    {
      assert LineWithin(lines[j], depth + 1, maxDepth);
      var k: nat :| depth + 1 <= k < maxDepth && IndentedAt(lines[j], k);
      assert depth <= k < maxDepth && IndentedAt(lines[j], k);
    }
  }

  lemma TaggedLine(depth: nat, tail: string)
    requires |tail| > 0 && tail[0] == '['
    ensures IndentedAt(Spaces(depth * 4) + tail, depth)
  {
    var line := Spaces(depth * 4) + tail;
    assert line[..4 * depth] == Spaces(depth * 4);
    assert line[4 * depth] == tail[0];
  }

  lemma NodeLineShaped(tools: FileTools, node: Node, depth: nat)
    ensures IndentedAt(NodeLine(tools, node, depth), depth)
  {
    TaggedLine(depth, NodeTail(tools, node));
  }

  lemma SingleShaped(line: string, depth: nat, maxDepth: nat)
    requires depth < maxDepth && IndentedAt(line, depth)
    ensures Shaped([line], depth, maxDepth)
  {
    assert LineWithin([line][0], depth, maxDepth);
  }

  /** `BuildTree` writes nothing at depth 3 or deeper, indents each line by
      four spaces per level, and writes the empty-folder note only at the top. */
  lemma {:induction false} TreeShape(tools: FileTools, listing: Listing, depth: nat, maxDepth: nat)
    ensures Shaped(TreeLines(tools, listing, depth, maxDepth), depth, maxDepth)
    ensures depth >= maxDepth ==> TreeLines(tools, listing, depth, maxDepth) == []
    decreases listing, 1, 0
  {
    if depth < maxDepth {
      match listing
      case AccessDenied =>
        TaggedLine(depth, "[存取被拒絕]");
        SingleShaped(Spaces(depth * 4) + "[存取被拒絕]", depth, maxDepth);
      case Failed(message) =>
        TaggedLine(depth, "[錯誤: " + message + "]");
        SingleShaped(Spaces(depth * 4) + "[錯誤: " + message + "]", depth, maxDepth);
      case Entries(nodes) =>
        NodesShape(tools, listing, 0, depth, maxDepth);
        var note := if |nodes| == 0 && depth == 0 then [EmptyFolderNote] else [];
        if |nodes| == 0 && depth == 0 {
          assert IndentedAt(EmptyFolderNote, 0) by {
            assert EmptyFolderNote[0] == '(';
          }
          SingleShaped(EmptyFolderNote, depth, maxDepth);
        }
        ShapedAppend(NodesLines(tools, listing, 0, depth, maxDepth), note, depth, maxDepth);
    }
  }

  lemma {:induction false} NodesShape(tools: FileTools, listing: Listing, i: nat, depth: nat, maxDepth: nat)
    requires listing.Entries? && i <= |listing.nodes| && depth < maxDepth
    ensures Shaped(NodesLines(tools, listing, i, depth, maxDepth), depth, maxDepth)
    decreases listing, 0, |listing.nodes| - i
  {
    if i < |listing.nodes| {
      var node := listing.nodes[i];
      NodeLineShaped(tools, node, depth);
      var head := [NodeLine(tools, node, depth)];
      SingleShaped(NodeLine(tools, node, depth), depth, maxDepth);
      var own := head + (if node.DirNode? then TreeLines(tools, node.listing, depth + 1, maxDepth) else []);
      if node.DirNode? {
        TreeShape(tools, node.listing, depth + 1, maxDepth);
        ShapedDeeper(TreeLines(tools, node.listing, depth + 1, maxDepth), depth, maxDepth);
        ShapedAppend(head, TreeLines(tools, node.listing, depth + 1, maxDepth), depth, maxDepth);
      } else {
        assert own == head;
      }
      NodesShape(tools, listing, i + 1, depth, maxDepth);
      ShapedAppend(own, NodesLines(tools, listing, i + 1, depth, maxDepth), depth, maxDepth);
    }
  }

  /** Only a top-level listing can report an empty folder. */
  lemma EmptyNoteOnlyAtTop(tools: FileTools, listing: Listing, depth: nat, maxDepth: nat)
    requires depth > 0
    ensures EmptyFolderNote !in TreeLines(tools, listing, depth, maxDepth)
  {
    var lines := TreeLines(tools, listing, depth, maxDepth);
    TreeShape(tools, listing, depth, maxDepth);
    forall j | 0 <= j < |lines|
      ensures lines[j] != EmptyFolderNote
    {
      assert LineWithin(lines[j], depth, maxDepth);
      var k: nat :| depth <= k < maxDepth && IndentedAt(lines[j], k);
      assert lines[j][0] == lines[j][..4 * k][0] == ' ';
      assert EmptyFolderNote[0] == '(';
    }
  }

  /** The text of the entries from index `i` on: the entry's line, the
      subtree of a folder, then the later entries. */
  lemma NodesLinesStep(tools: FileTools, listing: Listing, i: nat, depth: nat, maxDepth: nat)
    requires listing.Entries? && i < |listing.nodes|
    ensures Lines(NodesLines(tools, listing, i, depth, maxDepth))
      == NodeLine(tools, listing.nodes[i], depth) + NewLine
         + (if listing.nodes[i].DirNode? then Lines(TreeLines(tools, listing.nodes[i].listing, depth + 1, maxDepth)) else "")
         + Lines(NodesLines(tools, listing, i + 1, depth, maxDepth))
  {
    var node := listing.nodes[i];
    var below := if node.DirNode? then TreeLines(tools, node.listing, depth + 1, maxDepth) else [];
    var rest := NodesLines(tools, listing, i + 1, depth, maxDepth);
    assert NodesLines(tools, listing, i, depth, maxDepth) == [NodeLine(tools, node, depth)] + below + rest;
    LinesConsAppend(NodeLine(tools, node, depth), below, rest);
  }

  /** The text of a folder's listing: its entries, then the empty-folder note
      when it is the top level and has none. */
  lemma EntriesLines(tools: FileTools, listing: Listing, depth: nat, maxDepth: nat)
    requires listing.Entries? && depth < maxDepth
    ensures Lines(TreeLines(tools, listing, depth, maxDepth))
      == Lines(NodesLines(tools, listing, 0, depth, maxDepth))
         + (if |listing.nodes| == 0 && depth == 0 then EmptyFolderNote + NewLine else "")
  {
    var note := if |listing.nodes| == 0 && depth == 0 then [EmptyFolderNote] else [];
    LinesAppend(NodesLines(tools, listing, 0, depth, maxDepth), note);
    assert Lines([EmptyFolderNote]) == EmptyFolderNote + NewLine;
  }

  /** `BuildTree`: appends the lines of `listing` to the builder, descending
      into folders until `maxDepth`. */
  method BuildTree(tools: FileTools, listing: Listing, depth: nat, maxDepth: nat, sb: StringBuilder)
    modifies sb
    ensures sb.text == old(sb.text) + Lines(TreeLines(tools, listing, depth, maxDepth))
    decreases listing, 1, 0
  {
    if depth >= maxDepth {
      return;
    }
    match listing {
      case AccessDenied =>
        sb.AppendLine(Spaces(depth * 4) + "[存取被拒絕]");
      case Failed(message) =>
        sb.AppendLine(Spaces(depth * 4) + "[錯誤: " + message + "]");
      case Entries(nodes) =>
        BuildEntries(tools, listing, depth, maxDepth, sb);
        EntriesLines(tools, listing, depth, maxDepth);
        if |nodes| == 0 && depth == 0 {
          sb.AppendLine(EmptyFolderNote);
        }
    }
  }

  /** The `foreach` over the entries of a listing inside `BuildTree`. */
  method BuildEntries(tools: FileTools, listing: Listing, depth: nat, maxDepth: nat, sb: StringBuilder)
    requires listing.Entries?
    modifies sb
    ensures sb.text == old(sb.text) + Lines(NodesLines(tools, listing, 0, depth, maxDepth))
    decreases listing, 0, 1
  {
    for i := 0 to |listing.nodes|
      invariant old(sb.text) + Lines(NodesLines(tools, listing, 0, depth, maxDepth))
                == sb.text + Lines(NodesLines(tools, listing, i, depth, maxDepth))
    {
      BuildEntry(tools, listing, i, depth, maxDepth, sb);
    }
    assert NodesLines(tools, listing, |listing.nodes|, depth, maxDepth) == [];
  }

  /** One pass of that loop: the entry's line, then a folder's subtree. */
  method BuildEntry(tools: FileTools, listing: Listing, i: nat, depth: nat, maxDepth: nat, sb: StringBuilder)
    requires listing.Entries? && i < |listing.nodes|
    modifies sb
    ensures old(sb.text) + Lines(NodesLines(tools, listing, i, depth, maxDepth))
            == sb.text + Lines(NodesLines(tools, listing, i + 1, depth, maxDepth))
    decreases listing, 0, 0
  {
    var node := listing.nodes[i];
    var line := NodeLine(tools, node, depth);
    ghost var below := if node.DirNode? then Lines(TreeLines(tools, node.listing, depth + 1, maxDepth)) else "";
    ghost var rest := Lines(NodesLines(tools, listing, i + 1, depth, maxDepth));
    NodesLinesStep(tools, listing, i, depth, maxDepth);
    sb.AppendLine(line);
    if node.DirNode? {
      BuildTree(tools, node.listing, depth + 1, maxDepth, sb);
    }
    assert sb.text == old(sb.text) + line + NewLine + below;
    AppendSteps(old(sb.text), sb.text, line, below, rest);
  }

  lemma AppendSteps(before: string, after: string, line: string, below: string, rest: string)
    requires after == before + line + NewLine + below
    ensures before + (line + NewLine + below + rest) == after + rest
  {
  }

  /** The text `ListFiles(subPath)` returns. */
  function ListFilesText(tools: FileTools, disk: Disk, subPath: string): (r: string)
    ensures Contains(subPath, "..") ==> r == "錯誤：禁止存取上層目錄。"
    ensures (!Contains(subPath, "..") && Resolve(tools, subPath).Ok? && !InsideBase(tools, Resolve(tools, subPath).value))
              ==> r == "錯誤：超出授權存取範圍。"
  {
    if Contains(subPath, "..") then "錯誤：禁止存取上層目錄。"
    else
      match Resolve(tools, subPath)
      case Err(message) => "錯誤：無法讀取清單。" + message
      case Ok(target) =>
        if !InsideBase(tools, target) then "錯誤：超出授權存取範圍。"
        else if target !in disk.dirs then "錯誤：路徑 " + subPath + " 不存在。"
        else Lines(["[Folder Tree: " + subPath + "]"] + TreeLines(tools, disk.dirs[target], 0, MaxTreeDepth))
  }

  /** `ListFiles`: the header line, then the tree of the resolved folder. */
  method ListFiles(tools: FileTools, disk: Disk, subPath: string) returns (r: string)
    ensures r == ListFilesText(tools, disk, subPath)
  {
    if Contains(subPath, "..") {
      return "錯誤：禁止存取上層目錄。";
    }
    var resolved := Resolve(tools, subPath);
    if resolved.Err? {
      return "錯誤：無法讀取清單。" + resolved.error;
    }
    var target := resolved.value;
    if !InsideBase(tools, target) {
      return "錯誤：超出授權存取範圍。";
    }
    if target !in disk.dirs {
      return "錯誤：路徑 " + subPath + " 不存在。";
    }
    r := WriteTree(tools, subPath, disk.dirs[target]);
  }

  /** The header line and the tree of one folder, written through a builder. */
  method WriteTree(tools: FileTools, subPath: string, listing: Listing) returns (r: string)
    ensures r == Lines(["[Folder Tree: " + subPath + "]"] + TreeLines(tools, listing, 0, MaxTreeDepth))
  {
    var sb := new StringBuilder();
    var header := "[Folder Tree: " + subPath + "]";
    sb.AppendLine(header);
    BuildTree(tools, listing, 0, MaxTreeDepth, sb);
    LinesCons(header, TreeLines(tools, listing, 0, MaxTreeDepth));
    r := sb.text;
  }

  // ---------------------------------------------------------------- reading

  predicate IsImageExtension(extension: string) {
    extension in {".png", ".jpg", ".jpeg", ".gif", ".bmp", ".webp"}
  }

  function GetImageMimeType(extension: string): string {
    match extension
    case ".png" => "image/png"
    case ".jpg" => "image/jpeg"
    case ".jpeg" => "image/jpeg"
    case ".gif" => "image/gif"
    case ".bmp" => "image/bmp"
    case ".webp" => "image/webp"
    case _ => OctetStream
  }

  /** Every image extension has an image MIME type of its own kind; both
      spellings of JPEG share one; and no MIME type holds a marker delimiter. */
  lemma MimeTypes(extension: string)
    ensures IsImageExtension(extension) <==> GetImageMimeType(extension) != OctetStream
    ensures IsImageExtension(extension) ==> StartsWith(GetImageMimeType(extension), "image/")
    ensures GetImageMimeType(".jpg") == GetImageMimeType(".jpeg") == "image/jpeg"
    ensures ':' !in GetImageMimeType(extension) && ']' !in GetImageMimeType(extension)
  {
  }

  /** How `ReadFile` treats a lower-cased extension. */
  datatype ReadKind = AsText | AsDocument | AsImage | NotSupported

  function KindOf(extension: string): (k: ReadKind)
    ensures k == AsText <==> extension in {".txt", ".md", ".json", ".cs"}
    ensures k == AsDocument <==> extension == ".docx"
    ensures k == AsImage <==> IsImageExtension(extension)
  {
    if extension in {".txt", ".md", ".json", ".cs"} then AsText
    else if extension == ".docx" then AsDocument
    else if IsImageExtension(extension) then AsImage
    else NotSupported
  }

  /** Whether an image of this size is redrawn to fit `MaxDimension`. */
  predicate NeedsResize(picture: Picture) {
    picture.width > MaxDimension || picture.height > MaxDimension
  }

  /** The MIME type of the image a marker carries: a redrawn image that is not
      a PNG is re-encoded as JPEG. */
  function SentMimeType(picture: Picture, extension: string): string {
    if NeedsResize(picture) && extension != ".png" then "image/jpeg" else GetImageMimeType(extension)
  }

  /** The bytes a marker carries: the original file, or the redrawn copy. */
  function SentBytes(picture: Picture, extension: string, bytes: seq<Byte>): seq<Byte> {
    if !NeedsResize(picture) then bytes
    else if extension == ".png" then picture.scaledPng
    else picture.scaledJpeg
  }

  /** `ReadImageAsBase64` on the bytes of a file with a lower-cased extension. */
  function ReadImageAsBase64(tools: FileTools, bytes: seq<Byte>, extension: string): (r: string)
    ensures |bytes| > MaxFileSizeBytes ==> ImageMarker.Extract(r).None?
    ensures tools.platform.loadImage(bytes).Err? ==> ImageMarker.Extract(r).None?
    ensures |bytes| <= MaxFileSizeBytes && tools.platform.loadImage(bytes).Ok? ==>
              var picture := tools.platform.loadImage(bytes).value;
              ImageMarker.Extract(r)
                == Some((SentMimeType(picture, extension), Encode(SentBytes(picture, extension, bytes))))
  {
    if |bytes| > MaxFileSizeBytes then
      var r := "錯誤：圖片檔案過大 (" + tools.platform.formatSize(|bytes|) + ")，超過 10MB 上限。";
      assert r[0] != ImageMarker.Prefix[0];
      r
    else
      match tools.platform.loadImage(bytes)
      case Err(message) =>
        var r := "錯誤：無法讀取圖片。" + message;
        assert r[0] != ImageMarker.Prefix[0];
        r
      case Ok(picture) =>
        var mimeType := SentMimeType(picture, extension);
        var payload := Encode(SentBytes(picture, extension, bytes));
        var caption :=
          if NeedsResize(picture) then
            "[原始大小: " + NatToString(picture.width) + "x" + NatToString(picture.height) + ", 已縮放至: "
            + NatToString(picture.scaledWidth) + "x" + NatToString(picture.scaledHeight) + "]"
          else "[大小: " + NatToString(picture.width) + "x" + NatToString(picture.height) + "]";
        MimeTypes(extension);
        NoMarkerDelimiters(SentBytes(picture, extension, bytes));
        ImageMarker.ExtractEmit(mimeType, payload, caption);
        ImageMarker.Emit(mimeType, payload, caption)
  }

  /** `ReadFile(fileName)`. */
  function ReadFile(tools: FileTools, disk: Disk, fileName: string): (r: string)
    ensures Contains(fileName, "..") ==> r == "錯誤：格式不合法。"
    ensures (!Contains(fileName, "..") && Resolve(tools, fileName).Ok? && !InsideBase(tools, Resolve(tools, fileName).value))
              ==> r == "錯誤：超出授權範圍。"
  {
    if Contains(fileName, "..") then "錯誤：格式不合法。"
    else
      match Resolve(tools, fileName)
      case Err(message) => "錯誤：無法讀取檔案。" + message
      case Ok(path) =>
        if !InsideBase(tools, path) then "錯誤：超出授權範圍。"
        else if path !in disk.files then "錯誤：找不到檔案 " + fileName + "。"
        else if HasInvalidPathChars(path) then "錯誤：無法讀取檔案。" + IllegalCharactersMessage
        else ReadExisting(tools, disk.files[path], ToLower(GetExtension(path)))
  }

  /** What `ReadFile` returns for the bytes of a file that passed every check. */
  function ReadExisting(tools: FileTools, bytes: seq<Byte>, extension: string): (r: string)
    ensures KindOf(extension) == AsText ==> r == tools.platform.decodeText(bytes)
    ensures KindOf(extension) == AsDocument ==> r == tools.platform.extractDocx(bytes)
    ensures KindOf(extension) == AsImage ==> r == ReadImageAsBase64(tools, bytes, extension)
    ensures KindOf(extension) == NotSupported ==> r == UnsupportedFormatMessage
  {
    match KindOf(extension)
    case AsText => tools.platform.decodeText(bytes)
    case AsDocument => tools.platform.extractDocx(bytes)
    case AsImage => ReadImageAsBase64(tools, bytes, extension)
    case NotSupported => UnsupportedFormatMessage
  }

  // ---------------------------------------------------------------- writing and deleting

  /** The file name `WriteFile` stores under: `.txt` is added when the name has
      no extension, and only the last path component is kept. */
  function SafeFileName(fileName: string): (name: string)
    ensures |name| > 0 && forall i :: 0 <= i < |name| ==> !IsSeparator(name[i])
    ensures GetExtension(fileName) == "" ==> name == GetFileName(fileName) + ".txt"
    ensures GetExtension(fileName) != "" ==> name == GetFileName(fileName)
    ensures EndsWith(fileName + ".txt", name) || EndsWith(fileName, name)
  {
    if GetExtension(fileName) == "" then
      GetFileNameTxt(fileName);
      GetFileName(fileName + ".txt")
    else
      var ext := GetExtension(fileName);
      assert fileName[|fileName| - 1] == ext[|ext| - 1];
      GetFileName(fileName)
  }

  /** Appending `.txt` to a path appends it to the file name. */
  lemma GetFileNameTxt(path: string)
    ensures GetFileName(path + ".txt") == GetFileName(path) + ".txt"
  {
    var p1 := path + ".";
    var p2 := p1 + "t";
    var p3 := p2 + "x";
    assert path + ".txt" == p3 + "t";
    GetFileNameStep(path, '.');
    GetFileNameStep(p1, 't');
    GetFileNameStep(p2, 'x');
    GetFileNameStep(p3, 't');
    assert GetFileName(path) + "." + "t" + "x" + "t" == GetFileName(path) + ".txt";
  }

  lemma GetFileNameStep(path: string, c: char)
    requires !IsSeparator(c)
    ensures GetFileName(path + [c]) == GetFileName(path) + [c]
  {
    assert (path + [c])[..|path|] == path;
  }

  /** The full path `WriteFile` writes to. */
  function WorkspacePath(tools: FileTools, name: string): string {
    tools.baseDirectory + AiOutputFolder + [DirectorySeparator] + name
  }

  /** The bytes of the file after `File.AppendAllText(path, text, Encoding.UTF8)`:
      a file that is new or empty starts with the byte-order mark. */
  function Appended(platform: Platform, disk: Disk, path: string, text: string): seq<Byte> {
    if path in disk.files && |disk.files[path]| > 0 then disk.files[path] + platform.encodeUtf8(text)
    else Utf8Preamble + platform.encodeUtf8(text)
  }

  /** The bytes a write leaves in the file: appended with a line break, or
      overwritten with the byte-order mark and the text. */
  function WrittenBytes(platform: Platform, disk: Disk, path: string, content: string, append: bool): seq<Byte> {
    if append then Appended(platform, disk, path, content + NewLine)
    else Utf8Preamble + platform.encodeUtf8(content)
  }

  /** `WriteFile(fileName, content, append)`: the new disk and the message. */
  function WriteFile(tools: FileTools, disk: Disk, fileName: string, content: string, append: bool): (r: (Disk, string))
    requires Valid(tools)
    ensures HasInvalidPathChars(fileName) || HasInvalidPathChars(tools.baseDirectory) ==>
              r == (disk, "錯誤：無法儲存檔案。" + IllegalCharactersMessage)
    ensures !HasInvalidPathChars(fileName) && !HasInvalidPathChars(tools.baseDirectory) ==>
              var name := SafeFileName(fileName);
              var path := WorkspacePath(tools, name);
              r.0 == disk.(files := disk.files[path := WrittenBytes(tools.platform, disk, path, content, append)])
              && r.1 == "成功：" + (if append then "附加內容" else "儲存檔案(覆蓋)") + "已完成至 " + AiOutputFolder + "/" + name
  {
    if HasInvalidPathChars(fileName) then (disk, "錯誤：無法儲存檔案。" + IllegalCharactersMessage)
    else
      var name := SafeFileName(fileName);
      match Combine(tools.baseDirectory, AiOutputFolder)
      case Err(message) =>
        ConstantsValid();
        (disk, "錯誤：無法儲存檔案。" + message)
      case Ok(folder) =>
        WorkspaceCombine(tools, fileName);
        match Combine(folder, name)
        case Err(message) => (disk, "錯誤：無法儲存檔案。" + message)
        case Ok(path) =>
          var action := if append then "附加內容" else "儲存檔案(覆蓋)";
          (disk.(files := disk.files[path := WrittenBytes(tools.platform, disk, path, content, append)]),
           "成功：" + action + "已完成至 " + AiOutputFolder + "/" + name)
  }

  lemma ConstantsValid()
    ensures !HasInvalidPathChars(AiOutputFolder) && !HasInvalidPathChars(".txt")
    ensures |AiOutputFolder| > 0 && !IsPathRooted(AiOutputFolder) && !IsSeparator(AiOutputFolder[|AiOutputFolder| - 1])
  {
    assert AiOutputFolder[0] == 'A' && AiOutputFolder[1] == 'I';
    assert forall i :: 0 <= i < |AiOutputFolder| ==> AiOutputFolder[i] >= 'A';
    assert forall i :: 0 <= i < |".txt"| ==> ".txt"[i] >= '.';
  }

  lemma ValidSuffix(path: string, start: nat)
    requires !HasInvalidPathChars(path) && start <= |path|
    ensures !HasInvalidPathChars(path[start..])
  {
    assert forall i :: 0 <= i < |path| - start ==> path[start..][i] == path[start + i];
  }

  lemma ValidAppend(a: string, b: string)
    requires !HasInvalidPathChars(a) && !HasInvalidPathChars(b)
    ensures !HasInvalidPathChars(a + b)
  {
    forall i | 0 <= i < |a + b|
      ensures !IsInvalidPathChar((a + b)[i])
    {
      if i < |a| {
        assert (a + b)[i] == a[i];
      } else {
        assert (a + b)[i] == b[i - |a|];
      }
    }
  }

  /** Both `Path.Combine` calls of `WriteFile` succeed and join with one separator. */
  lemma WorkspaceCombine(tools: FileTools, fileName: string)
    requires Valid(tools) && !HasInvalidPathChars(tools.baseDirectory) && !HasInvalidPathChars(fileName)
    ensures Combine(tools.baseDirectory, AiOutputFolder) == Ok(tools.baseDirectory + AiOutputFolder)
    ensures Combine(tools.baseDirectory + AiOutputFolder, SafeFileName(fileName))
              == Ok(WorkspacePath(tools, SafeFileName(fileName)))
  {
    ConstantsValid();
    var name := SafeFileName(fileName);
    var folder := tools.baseDirectory + AiOutputFolder;
    assert tools.baseDirectory[|tools.baseDirectory| - 1] == DirectorySeparator;
    SafeFileNameValid(fileName);
    ValidAppend(tools.baseDirectory, AiOutputFolder);
    assert folder[|folder| - 1] == AiOutputFolder[|AiOutputFolder| - 1];
    assert IsFileName(name);
    CombineJoin(folder, name);
  }

  /** `Path.Combine` of a folder not ending in a separator and a single file
      name puts one separator between them. */
  lemma CombineJoin(folder: string, name: string)
    requires !HasInvalidPathChars(folder) && !HasInvalidPathChars(name)
    requires |folder| > 0 && !IsSeparator(folder[|folder| - 1]) && IsFileName(name)
    ensures Combine(folder, name) == Ok(folder + [DirectorySeparator] + name)
  {
    assert !IsSeparator(name[0]);
    if |name| >= 2 {
      assert !IsSeparator(name[1]);
    }
  }

  /** The name `WriteFile` stores under holds no character `Path.Combine`
      refuses when the caller's name holds none. */
  lemma SafeFileNameValid(fileName: string)
    requires !HasInvalidPathChars(fileName)
    ensures !HasInvalidPathChars(SafeFileName(fileName))
  {
    ConstantsValid();
    var file := GetFileName(fileName);
    ValidSuffix(fileName, |fileName| - |file|);
    if GetExtension(fileName) == "" {
      ValidAppend(file, ".txt");
    }
  }

  /** Every write lands directly in the `AI_Workspace` folder of the base
      directory, whatever path the caller named, and changes no other file
      and no listing. */
  lemma WriteStaysInWorkspace(tools: FileTools, disk: Disk, fileName: string, content: string, append: bool)
    requires Valid(tools)
    ensures var after := WriteFile(tools, disk, fileName, content, append).0;
      after == disk
      || exists name :: IsFileName(name) && WorkspacePath(tools, name) in after.files
           && after == disk.(files := disk.files[WorkspacePath(tools, name) := after.files[WorkspacePath(tools, name)]])
  {
    if !HasInvalidPathChars(fileName) && !HasInvalidPathChars(tools.baseDirectory) {
      var name := SafeFileName(fileName);
      assert IsFileName(name);
      var after := WriteFile(tools, disk, fileName, content, append).0;
      assert WorkspacePath(tools, name) in after.files;
    }
  }

  /** A single path component: not empty, no separator. */
  predicate IsFileName(name: string) {
    |name| > 0 && forall i :: 0 <= i < |name| ==> !IsSeparator(name[i])
  }

  /** `DeleteFile(fileName)`: the new disk and the message. */
  function DeleteFile(tools: FileTools, disk: Disk, fileName: string): (r: (Disk, string))
    ensures Contains(fileName, "..") ==> r == (disk, "錯誤：格式不合法。")
    ensures (!Contains(fileName, "..") && Resolve(tools, fileName).Ok? && !InsideBase(tools, Resolve(tools, fileName).value))
              ==> r == (disk, "錯誤：超出授權範圍。")
    ensures r.0.dirs == disk.dirs
    ensures r.0 == disk || exists path :: path in disk.files && InsideBase(tools, path) && r.0.files == disk.files - {path}
  {
    if Contains(fileName, "..") then (disk, "錯誤：格式不合法。")
    else
      match Resolve(tools, fileName)
      case Err(message) => (disk, "錯誤：無法刪除檔案。" + message)
      case Ok(path) =>
        if !InsideBase(tools, path) then (disk, "錯誤：超出授權範圍。")
        else if path !in disk.files then (disk, "錯誤：找不到檔案 " + fileName + "。")
        else (disk.(files := disk.files - {path}), "成功：已刪除檔案 " + fileName)
  }
}
