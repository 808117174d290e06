/** The repository's line counter: which files it visits, how it classifies each line of a
    file as blank, comment or code, and how per-file tallies are summed overall and per
    language. The directory tree and the files' contents are a value; printing is left out. */
module CountLoc {
  import opened Text

  /** Directory names pruned anywhere in the tree. */
  const IgnoreDirs: set<string> := {".git", ".venv", "node_modules", "__pycache__", "dist", "build", ".idea", ".vscode"}
  /** File names skipped wherever they occur. */
  const IgnoreFileNames: set<string> := {"__init__.py"}
  /** The extensions counted and their language. */
  const LangByExt: map<string, string> :=
    map[".py" := "python", ".ts" := "ts", ".tsx" := "ts", ".js" := "js", ".jsx" := "js", ".html" := "html"]

  // ---------------------------------------------------------------------
  // Tallies

  datatype Counts = Counts(total: nat, code: nat, comment: nat, blank: nat)

  const Zero: Counts := Counts(0, 0, 0, 0)

  /** Every counted line is in exactly one category. */
  predicate Partitioned(c: Counts) {
    c.total == c.code + c.comment + c.blank
  }

  /** Componentwise sum. */
  function Plus(a: Counts, b: Counts): Counts
  {
    Counts(a.total + b.total, a.code + b.code, a.comment + b.comment, a.blank + b.blank)
  }

  /** The sum of two partitioned tallies is partitioned. */
  lemma PlusPartitioned(a: Counts, b: Counts)
    requires Partitioned(a) && Partitioned(b)
    ensures Partitioned(Plus(a, b))
  {
  }

  /** The mutable tally of the source. */
  class Tally {
    var total: nat
    var code: nat
    var comment: nat
    var blank: nat

    function Value(): Counts
      reads this
    {
      Counts(total, code, comment, blank)
    }

    constructor ()
      ensures Value() == Zero
    {
      total, code, comment, blank := 0, 0, 0, 0;
    }

    /** `add(other)`: adds the other tally's four counts field by field. */
    method Add(other: Counts)
      modifies this
      ensures Value() == Plus(old(Value()), other)
    {
      total := total + other.total;
      code := code + other.code;
      comment := comment + other.comment;
      blank := blank + other.blank;
    }
  }

  // ---------------------------------------------------------------------
  // Lines

  /** Joining pieces with a separator, one more piece at the end. */
  lemma {:induction false} JoinSnoc(parts: seq<string>, last: string, sep: string)
    requires parts != []
    ensures Join(parts + [last], sep) == Join(parts, sep) + sep + last
    decreases |parts|
  {
    if |parts| == 1 {
      assert (parts + [last])[1..] == [last];
    } else {
      assert (parts + [last])[1..] == parts[1..] + [last];
      JoinSnoc(parts[1..], last, sep);
    }
  }

  /** `content.splitlines()` with '\n' as the line break: no trailing empty line, and no
      line at all for empty content. */
  function Lines(content: string): (lines: seq<string>)
    ensures forall l :: l in lines ==> '\n' !in l
  {
    if content == [] then []
    else
      var parts := SplitOn(content, '\n');
      if |parts| >= 2 && parts[|parts| - 1] == [] then parts[..|parts| - 1] else parts
  }

  /** The lines joined with line breaks give the content back, less a final line break. */
  lemma LinesRoundTrip(content: string)
    ensures content == Join(Lines(content), "\n") + (if content != [] && content[|content| - 1] == '\n' then "\n" else "")
  {
    if content != [] {
      var parts := SplitOn(content, '\n');
      JoinSplitOn(content, '\n');
      var n := |parts|;
      if n == 1 {
        assert content == parts[0];
        assert parts[0] in parts;
      } else {
        JoinSnoc(parts[..n - 1], parts[n - 1], "\n");
        assert parts[..n - 1] + [parts[n - 1]] == parts;
        assert parts[n - 1] in parts;
        if parts[n - 1] != [] {
          assert content[|content| - 1] == parts[n - 1][|parts[n - 1]| - 1];
        }
      }
    }
  }

  // ---------------------------------------------------------------------
  // Classifying lines

  /** The comment syntax of a language: the line-comment prefix and the block delimiter pairs,
      tried in order. */
  datatype Delims = Delims(lineComment: Option<string>, blocks: seq<(string, string)>)

  function DelimitersOf(lang: string): (d: Delims)
    ensures lang == "html" || !(lang in {"python", "ts", "js"}) <==> d.lineComment.None?
    ensures forall i :: 0 <= i < |d.blocks| ==> d.blocks[i].0 != [] && d.blocks[i].1 != []
  {
    if lang == "python" then Delims(Some("#"), [("\"\"\"", "\"\"\""), ("'''", "'''")])
    else if lang == "ts" || lang == "js" then Delims(Some("//"), [("/*", "*/")])
    else if lang == "html" then Delims(None, [("<!--", "-->")])
    else Delims(None, [])
  }

  datatype Kind = Blank | Comment | Code

  /** The loop's state between lines: `in_block` and `block_end_token`. */
  datatype Scan = Scan(inBlock: bool, endToken: Option<string>)

  const Initial: Scan := Scan(false, None)

  /** The first delimiter pair at or after `i` whose start token occurs in the line. */
  function FirstStartFrom(blocks: seq<(string, string)>, line: string, i: nat): (k: nat)
    requires i <= |blocks|
    ensures i <= k <= |blocks|
    ensures k < |blocks| ==> Contains(line, blocks[k].0)
    ensures forall j :: i <= j < k ==> !Contains(line, blocks[j].0)
    decreases |blocks| - i
  {
    if i == |blocks| then i
    else if Contains(line, blocks[i].0) then i
    else FirstStartFrom(blocks, line, i + 1)
  }

  /** The stripped line starts with the language's line-comment prefix. */
  predicate IsLineComment(d: Delims, line: string) {
    d.lineComment.Some? && d.lineComment.value != [] && StartsWith(line, d.lineComment.value)
  }

  /** One iteration of the loop over lines: the category of the line and the next state. */
  function Classify(d: Delims, st: Scan, raw: string): (r: (Kind, Scan))
    ensures r.0 == Blank <==> Strip(raw) == []
    ensures r.0 == Blank ==> r.1 == st
    ensures r.0 == Code <==>
              Strip(raw) != [] && !st.inBlock && FirstStartFrom(d.blocks, Strip(raw), 0) == |d.blocks| &&
              !IsLineComment(d, Strip(raw))
    ensures r.0 == Code ==> r.1 == st
    ensures st.inBlock && !r.1.inBlock ==> st.endToken.Some? && Contains(Strip(raw), st.endToken.value)
  {
    var line := Strip(raw);
    if line == [] then (Blank, st)
    else if st.inBlock then
      if st.endToken.Some? && st.endToken.value != [] && Contains(line, st.endToken.value) then
        (Comment, st.(inBlock := false))
      else (Comment, st)
    else
      var k := FirstStartFrom(d.blocks, line, 0);
      if k < |d.blocks| then
        var start := d.blocks[k].0;
        var end := d.blocks[k].1;
        var closes := Contains(line, end) && Find(line, end) > Find(line, start);
        (Comment, Scan(!closes, Some(end)))
      else if IsLineComment(d, line) then (Comment, st)
      else (Code, st)
  }

  /** One more line in the category `k`. */
  function Bump(c: Counts, k: Kind): Counts
  {
    match k
    case Blank => c.(total := c.total + 1, blank := c.blank + 1)
    case Comment => c.(total := c.total + 1, comment := c.comment + 1)
    case Code => c.(total := c.total + 1, code := c.code + 1)
  }

  /** The loop over lines as a function: the tally and the state after them. */
  function Run(d: Delims, lines: seq<string>): (Counts, Scan)
  {
    if lines == [] then (Zero, Initial)
    else
      var prev := Run(d, lines[..|lines| - 1]);
      var step := Classify(d, prev.1, lines[|lines| - 1]);
      (Bump(prev.0, step.0), step.1)
  }

  /** Each line is counted once in total and once in exactly one category. */
  lemma {:induction false} RunCounts(d: Delims, lines: seq<string>)
    ensures Run(d, lines).0.total == |lines|
    ensures Partitioned(Run(d, lines).0)
    decreases |lines|
  {
    if lines != [] {
      RunCounts(d, lines[..|lines| - 1]);
    }
  }

  /** `count_file(path, lang)` on the content read (`None` when reading raised). */
  function FileCounts(content: Option<string>, lang: string): (c: Counts)
    ensures Partitioned(c)
    ensures content.None? ==> c == Zero
    ensures content.Some? ==> c.total == |Lines(content.value)|
  {
    if content.None? then Zero
    else
      RunCounts(DelimitersOf(lang), Lines(content.value));
      Run(DelimitersOf(lang), Lines(content.value)).0
  }

  /** The inner loop of `count_file` over the delimiter pairs: the index of the first pair
      whose start token is in the line, or the number of pairs. */
  method FindBlockStart(blocks: seq<(string, string)>, line: string) returns (k: nat)
    ensures k == FirstStartFrom(blocks, line, 0)
  {
    k := 0;
    while k < |blocks|
      invariant k <= |blocks|
      invariant FirstStartFrom(blocks, line, 0) == FirstStartFrom(blocks, line, k)
    {
      if Contains(line, blocks[k].0) {
        return;
      }
      k := k + 1;
    }
  }

  /** The body of the loop of `count_file` for one line: its category and the new block state. */
  method ClassifyLine(d: Delims, inBlock: bool, endToken: Option<string>, raw: string)
    returns (kind: Kind, inBlock': bool, endToken': Option<string>)
    ensures (kind, Scan(inBlock', endToken')) == Classify(d, Scan(inBlock, endToken), raw)
  {
    inBlock', endToken' := inBlock, endToken;
    var line := Strip(raw);
    if line == [] {
      return Blank, inBlock', endToken';
    }
    if inBlock {
      if endToken.Some? && endToken.value != [] && Contains(line, endToken.value) {
        inBlock' := false;
      }
      return Comment, inBlock', endToken';
    }
    var k := FindBlockStart(d.blocks, line);
    if k < |d.blocks| {
      var start := d.blocks[k].0;
      var end := d.blocks[k].1;
      inBlock', endToken' := true, Some(end);
      if Contains(line, end) && Find(line, end) > Find(line, start) {
        inBlock' := false;
      }
      return Comment, inBlock', endToken';
    }
    if d.lineComment.Some? && d.lineComment.value != [] && StartsWith(line, d.lineComment.value) {
      return Comment, inBlock', endToken';
    }
    kind := Code;
  }

  /** The loop of `count_file` over the lines, counting each line once in its category
      while carrying the block state. */
  method CountLines(d: Delims, lines: seq<string>) returns (t: Counts)
    ensures t == Run(d, lines).0
  {
    var tally := new Tally();
    var inBlock := false;
    var endToken: Option<string> := None;
    for i := 0 to |lines|
      invariant tally.Value() == Run(d, lines[..i]).0
      invariant Scan(inBlock, endToken) == Run(d, lines[..i]).1
    {
      assert lines[..i + 1][..i] == lines[..i];
      var kind;
      kind, inBlock, endToken := ClassifyLine(d, inBlock, endToken, lines[i]);
      ghost var before := tally.Value();
      tally.total := tally.total + 1;
      if kind == Blank {
        tally.blank := tally.blank + 1;
      } else if kind == Comment {
        tally.comment := tally.comment + 1;
      } else {
        tally.code := tally.code + 1;
      }
      assert tally.Value() == Bump(before, kind);
    }
    assert lines[..|lines|] == lines;
    t := tally.Value();
  }

  /** `count_file(path, lang)`: an unreadable file counts nothing; otherwise the lines of the
      content are counted with the language's delimiters. */
  method CountFile(content: Option<string>, lang: string) returns (t: Counts)
    ensures t == FileCounts(content, lang)
  {
    if content.None? {
      var tally := new Tally();
      return tally.Value();
    }
    t := CountLines(DelimitersOf(lang), Lines(content.value));
  }

  // ---------------------------------------------------------------------
  // What the classification does

  /** A whitespace-only line is blank even inside a block comment, and leaves the state alone. */
  lemma BlankBeforeBlock(d: Delims, st: Scan, raw: string)
    requires AllSpace(raw)
    ensures Classify(d, st, raw) == (Blank, st)
  {
    StripEmptyIff(raw);
  }

  /** Inside a block every non-blank line is a comment; the block closes exactly on a line
      holding the end token. */
  lemma InsideBlock(d: Delims, end: string, raw: string)
    requires Strip(raw) != [] && end != []
    ensures Classify(d, Scan(true, Some(end)), raw).0 == Comment
    ensures !Classify(d, Scan(true, Some(end)), raw).1.inBlock <==> Contains(Strip(raw), end)
  {
  }

  /** A Python line opening a `"""` block never closes it on the same line, since the start
      and end tokens are the same string and so are first found at the same index: a one-line
      docstring leaves the block open and the next non-blank line is counted as a comment. */
  lemma PythonDocstringStaysOpen(raw: string, next: string)
    requires Contains(Strip(raw), "\"\"\"") && Strip(next) != []
    ensures var d := DelimitersOf("python");
            var first := Classify(d, Initial, raw);
            first.0 == Comment && first.1 == Scan(true, Some("\"\"\"")) &&
            Classify(d, first.1, next).0 == Comment
  {
  }

  /** In a language without a line-comment prefix (html), a line with no block start token is
      code whatever it begins with. */
  lemma HtmlHasNoLineComment(raw: string)
    requires Strip(raw) != [] && !Contains(Strip(raw), "<!--")
    ensures Classify(DelimitersOf("html"), Initial, raw).0 == Code
  {
  }

  /** A one-line `/* … */` comment closes, and a following code line counts as code. */
  lemma ScriptBlockClosesOnSameLine(raw: string)
    requires Strip(raw) != [] && Find(Strip(raw), "/*") >= 0 && Find(Strip(raw), "*/") > Find(Strip(raw), "/*")
    ensures Classify(DelimitersOf("ts"), Initial, raw) == (Comment, Scan(false, Some("*/")))
  {
  }

  // ---------------------------------------------------------------------
  // Which files are visited

  /** `os.path.splitext(name)[1]`: from the last '.' when something other than dots precedes it. */
  function Ext(name: string): (ext: string)
    ensures ext == [] || (ext[0] == '.' && '.' !in ext[1..])
    ensures |ext| <= |name| && ext == name[|name| - |ext|..]
    ensures ext != [] ==> exists j :: 0 <= j < |name| - |ext| && name[j] != '.'
  {
    var i := LastIndexOf(name, '.');
    if i > 0 && exists j :: 0 <= j < i && name[j] != '.' then name[i..] else []
  }

  /** The language a file is counted as, if any. */
  function LangOf(name: string): (lang: Option<string>)
    ensures lang.Some? ==> name !in IgnoreFileNames && Lower(Ext(name)) in LangByExt && lang.value == LangByExt[Lower(Ext(name))]
    ensures lang.None? ==> name in IgnoreFileNames || Lower(Ext(name)) !in LangByExt
  {
    if name in IgnoreFileNames then None
    else
      var e := Lower(Ext(name));
      if e in LangByExt then Some(LangByExt[e]) else None
  }

  /** A name whose only dot is its first character has no extension, so is never counted. */
  lemma DotfileNotCounted(rest: string)
    requires '.' !in rest
    ensures LangOf("." + rest) == None
  {
    var name := "." + rest;
    assert name[0] == '.';
    assert forall j :: 1 <= j < |name| ==> name[j] == rest[j - 1];
    assert LastIndexOf(name, '.') == 0;
    assert Lower([]) == [];
  }

  /** A plain base name followed by a counted extension, in any letter case, is counted in
      that extension's language (unless it is `__init__.py`). */
  lemma CountedExtension(base: string, ext: string)
    requires base != [] && '.' !in base && Lower(ext) in LangByExt && base + ext !in IgnoreFileNames
    ensures LangOf(base + ext) == Some(LangByExt[Lower(ext)])
  {
    var e := Lower(ext);
    var name := base + ext;
    assert e == ".py" || e == ".ts" || e == ".tsx" || e == ".js" || e == ".jsx" || e == ".html";
    assert e[0] == '.' && forall j :: 1 <= j < |e| ==> e[j] != '.';
    assert forall j :: 0 <= j < |ext| ==> (ext[j] == '.' <==> e[j] == '.');
    assert forall j :: |base| <= j < |name| ==> name[j] == ext[j - |base|];
    assert name[|base|] == '.';
    assert forall j :: |base| < j < |name| ==> name[j] != '.';
    assert LastIndexOf(name, '.') == |base|;
    assert name[0] == base[0];
    assert name[|base|..] == ext;
  }

  /** A directory: its files (name and content, `None` when unreadable) and its subdirectories,
      in listing order. */
  datatype Tree = Tree(files: seq<(string, Option<string>)>, subdirs: seq<Subdir>)
  datatype Subdir = Subdir(name: string, tree: Tree)

  /** A file `iter_files` yields: the directories leading to it, its name, language and content. */
  datatype SourceFile = SourceFile(dirs: seq<string>, name: string, lang: string, content: Option<string>)

  /** The counted files of one directory listing, from index `i`. */
  function FilesHere(files: seq<(string, Option<string>)>, dirs: seq<string>, i: nat): seq<SourceFile>
    requires i <= |files|
    decreases |files| - i
  {
    if i == |files| then []
    else
      var lang := LangOf(files[i].0);
      (if lang.Some? then [SourceFile(dirs, files[i].0, lang.value, files[i].1)] else []) +
      FilesHere(files, dirs, i + 1)
  }

  /** `iter_files(root)`: a directory's own files first, then each kept subdirectory in turn. */
  function IterFiles(t: Tree, dirs: seq<string>): seq<SourceFile>
    decreases t, |t.subdirs| + 1
  {
    FilesHere(t.files, dirs, 0) + SubdirFiles(t, dirs, 0)
  }

  function SubdirFiles(t: Tree, dirs: seq<string>, i: nat): seq<SourceFile>
    requires i <= |t.subdirs|
    decreases t, |t.subdirs| - i
  {
    if i == |t.subdirs| then []
    else
      var sd := t.subdirs[i];
      (if sd.name in IgnoreDirs then [] else IterFiles(sd.tree, dirs + [sd.name])) +
      SubdirFiles(t, dirs, i + 1)
  }

  /** What a yielded file satisfies: it has a language by its name, and lies under `dirs`
      with no ignored directory below that. */
  predicate Yielded(f: SourceFile, dirs: seq<string>) {
    LangOf(f.name) == Some(f.lang) && dirs <= f.dirs &&
    forall i :: |dirs| <= i < |f.dirs| ==> f.dirs[i] !in IgnoreDirs
  }

  lemma {:induction false} FilesHereYielded(files: seq<(string, Option<string>)>, dirs: seq<string>, i: nat)
    requires i <= |files|
    ensures forall f :: f in FilesHere(files, dirs, i) ==> Yielded(f, dirs) && f.dirs == dirs
    decreases |files| - i
  {
    if i < |files| {
      FilesHereYielded(files, dirs, i + 1);
    }
  }

  /** Only counted files are yielded, and never from inside an ignored directory. */
  lemma {:induction false} IterFilesYielded(t: Tree, dirs: seq<string>)
    ensures forall f :: f in IterFiles(t, dirs) ==> Yielded(f, dirs)
    decreases t, |t.subdirs| + 1
  {
    FilesHereYielded(t.files, dirs, 0);
    SubdirFilesYielded(t, dirs, 0);
  }

  lemma {:induction false} SubdirFilesYielded(t: Tree, dirs: seq<string>, i: nat)
    requires i <= |t.subdirs|
    ensures forall f :: f in SubdirFiles(t, dirs, i) ==> Yielded(f, dirs)
    decreases t, |t.subdirs| - i
  {
    if i < |t.subdirs| {
      var sd := t.subdirs[i];
      SubdirFilesYielded(t, dirs, i + 1);
      if sd.name !in IgnoreDirs {
        IterFilesYielded(sd.tree, dirs + [sd.name]);
        forall f | f in IterFiles(sd.tree, dirs + [sd.name]) ensures Yielded(f, dirs) {
          assert f.dirs[|dirs|] == sd.name;
        }
      }
    }
  }

  // ---------------------------------------------------------------------
  // Summing up

  /** Each file's language with its tally, in the order the files are visited. */
  function Tallied(fs: seq<SourceFile>): (ts: seq<(string, Counts)>)
    ensures |ts| == |fs|
  {
    seq(|fs|, i requires 0 <= i < |fs| => (fs[i].lang, FileCounts(fs[i].content, fs[i].lang)))
  }

  /** Every file's tally is partitioned. */
  predicate AllPartitioned(ts: seq<(string, Counts)>) {
    forall i :: 0 <= i < |ts| ==> Partitioned(ts[i].1)
  }

  lemma TalliedPartitioned(fs: seq<SourceFile>)
    ensures AllPartitioned(Tallied(fs))
  {
    forall i | 0 <= i < |fs| ensures Partitioned(Tallied(fs)[i].1) {
      var f := fs[i];
      assert Tallied(fs)[i].1 == FileCounts(f.content, f.lang);
    }
  }

  /** The tallies of the first `n` files, summed. */
  function SumFiles(ts: seq<(string, Counts)>, n: nat): Counts
    requires n <= |ts|
  {
    if n == 0 then Zero
    else Plus(SumFiles(ts, n - 1), ts[n - 1].1)
  }

  /** Summing partitioned tallies gives a partitioned tally. */
  lemma {:induction false} SumFilesPartitioned(ts: seq<(string, Counts)>, n: nat)
    requires n <= |ts| && AllPartitioned(ts)
    ensures Partitioned(SumFiles(ts, n))
  {
    if n > 0 {
      SumFilesPartitioned(ts, n - 1);
      PlusPartitioned(SumFiles(ts, n - 1), ts[n - 1].1);
    }
  }

  function Get(m: map<string, Counts>, lang: string): Counts {
    if lang in m then m[lang] else Zero
  }

  /** `per_lang` after the first `n` files: each language's files summed. */
  function PerLang(ts: seq<(string, Counts)>, n: nat): map<string, Counts>
    requires n <= |ts|
  {
    if n == 0 then map[]
    else
      var m := PerLang(ts, n - 1);
      var l := ts[n - 1].0;
      m[l := Plus(Get(m, l), ts[n - 1].1)]
  }

  predicate HasLang(ts: seq<(string, Counts)>, n: nat, lang: string)
    requires n <= |ts|
  {
    exists i :: 0 <= i < n && ts[i].0 == lang
  }

  /** The languages with a tally are exactly those of the files. */
  lemma {:induction false} PerLangKeys(ts: seq<(string, Counts)>, n: nat)
    requires n <= |ts|
    ensures forall l :: l in PerLang(ts, n) <==> HasLang(ts, n, l)
  {
    if n > 0 {
      PerLangKeys(ts, n - 1);
      forall l ensures l in PerLang(ts, n) <==> HasLang(ts, n, l) {
        if l == ts[n - 1].0 {
          assert ts[n - 1].0 == l;
        } else {
          assert l in PerLang(ts, n) <==> l in PerLang(ts, n - 1);
          if HasLang(ts, n, l) {
            var i :| 0 <= i < n && ts[i].0 == l;
            assert i < n - 1;
          }
        }
      }
    }
  }

  /** The sum of the tallies of the languages listed. */
  function Total(langs: seq<string>, m: map<string, Counts>): Counts {
    if langs == [] then Zero
    else Plus(Total(langs[..|langs| - 1], m), Get(m, langs[|langs| - 1]))
  }

  predicate Distinct(langs: seq<string>) {
    forall i, j :: 0 <= i < j < |langs| ==> langs[i] != langs[j]
  }

  lemma {:induction false} TotalUnchanged(langs: seq<string>, m: map<string, Counts>, k: string, v: Counts)
    requires k !in langs
    ensures Total(langs, m[k := v]) == Total(langs, m)
    decreases |langs|
  {
    if langs != [] {
      TotalUnchanged(langs[..|langs| - 1], m, k, v);
    }
  }

  /** Adding to one listed language's tally adds to the total once. */
  lemma {:induction false} TotalAdd(langs: seq<string>, m: map<string, Counts>, k: string, v: Counts)
    requires Distinct(langs) && k in langs
    ensures Total(langs, m[k := Plus(Get(m, k), v)]) == Plus(Total(langs, m), v)
    decreases |langs|
  {
    var init := langs[..|langs| - 1];
    var l := langs[|langs| - 1];
    if l == k {
      assert k !in init by {
        forall i | 0 <= i < |init| ensures init[i] != k { assert init[i] == langs[i]; }
      }
      TotalUnchanged(init, m, k, Plus(Get(m, k), v));
    } else {
      assert k in init by {
        var i :| 0 <= i < |langs| && langs[i] == k;
        assert init[i] == k;
      }
      TotalAdd(init, m, k, v);
    }
  }

  /** Languages without a tally add nothing. */
  lemma {:induction false} TotalOfUntallied(langs: seq<string>, m: map<string, Counts>)
    requires forall i :: 0 <= i < |langs| ==> langs[i] !in m
    ensures Total(langs, m) == Zero
    decreases |langs|
  {
    if langs != [] {
      var init := langs[..|langs| - 1];
      assert forall i :: 0 <= i < |init| ==> init[i] == langs[i];
      TotalOfUntallied(init, m);
      assert Get(m, langs[|langs| - 1]) == Zero;
    }
  }

  /** The overall tally equals the sum of the per-language tallies, for any listing of the
      languages seen without repeats. */
  lemma {:induction false} OverallIsSumOfLanguages(ts: seq<(string, Counts)>, n: nat, langs: seq<string>)
    requires n <= |ts| && Distinct(langs) && forall i :: 0 <= i < n ==> ts[i].0 in langs
    ensures Total(langs, PerLang(ts, n)) == SumFiles(ts, n)
  {
    if n == 0 {
      TotalOfUntallied(langs, PerLang(ts, n));
    } else {
      OverallIsSumOfLanguages(ts, n - 1, langs);
      TotalAdd(langs, PerLang(ts, n - 1), ts[n - 1].0, ts[n - 1].1);
    }
  }

  /** The report lists each language with a tally once (in sorted order, say); their tallies
      add up to the overall one. */
  lemma ReportAddsUp(ts: seq<(string, Counts)>, langs: seq<string>)
    requires Distinct(langs) && forall l :: l in langs <==> l in PerLang(ts, |ts|)
    ensures Total(langs, PerLang(ts, |ts|)) == SumFiles(ts, |ts|)
  {
    PerLangKeys(ts, |ts|);
    forall i | 0 <= i < |ts| ensures ts[i].0 in langs {
      assert HasLang(ts, |ts|, ts[i].0);
    }
    OverallIsSumOfLanguages(ts, |ts|, langs);
  }

  /** One more file adds its tally to the overall one and to its language's. */
  lemma SumStep(ts: seq<(string, Counts)>, i: nat)
    requires i < |ts|
    ensures SumFiles(ts, i + 1) == Plus(SumFiles(ts, i), ts[i].1)
    ensures PerLang(ts, i + 1) == PerLang(ts, i)[ts[i].0 := Plus(Get(PerLang(ts, i), ts[i].0), ts[i].1)]
  {
  }

  /** The loop of `main()` without the printing: each file is counted and added to the
      overall tally and to its language's tally. */
  method SummarizeFiles(fs: seq<SourceFile>) returns (overall: Counts, perLang: map<string, Counts>, fileCount: nat)
    ensures var ts := Tallied(fs);
            overall == SumFiles(ts, |ts|) && perLang == PerLang(ts, |ts|) && fileCount == |fs|
  {
    ghost var ts := Tallied(fs);
    var tally := new Tally();
    perLang := map[];
    fileCount := 0;
    for i := 0 to |fs|
      invariant tally.Value() == SumFiles(ts, i)
      invariant perLang == PerLang(ts, i)
      invariant fileCount == i
    {
      var f := fs[i];
      var t := CountFile(f.content, f.lang);
      assert ts[i] == (f.lang, t);
      SumStep(ts, i);
      tally.Add(t);
      perLang := perLang[f.lang := Plus(Get(perLang, f.lang), t)];
      fileCount := fileCount + 1;
    }
    overall := tally.Value();
  }

  /** `main()` without the printing, over the files `iter_files` yields from the root. */
  method Summarize(root: Tree) returns (overall: Counts, perLang: map<string, Counts>, fileCount: nat)
    ensures var ts := Tallied(IterFiles(root, []));
            overall == SumFiles(ts, |ts|) && perLang == PerLang(ts, |ts|) && fileCount == |ts|
    ensures Partitioned(overall)
  {
    var fs := IterFiles(root, []);
    overall, perLang, fileCount := SummarizeFiles(fs);
    TalliedPartitioned(fs);
    SumFilesPartitioned(Tallied(fs), |fs|);
  }
}
