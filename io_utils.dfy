// brand_guidelines_extractor/io_utils.py: the dotenv loader, the ordered,
// de-duplicated collection of image paths, and the data-URL prefix. The
// filesystem (`expanduser`, `resolve`, `is_file`, `is_dir`, `exists`, `glob`),
// `mimetypes` and base64 are opaque inputs.

module IoUtils {
  import opened Collections
  import opened AsciiStrings
  import opened Text
  import opened Paths

  // ---------------------------------------------------------------------
  // load_env_file
  // ---------------------------------------------------------------------

  /** `KEY=VALUE` as one line of the file assigns it. */
  datatype Assignment = Assignment(key: string, value: string)

  /** `value.strip().strip('"').strip("'")` */
  function EnvValue(raw: string): string {
    StripChar(StripChar(Strip(raw), '"'), '\'')
  }

  /** The assignment one raw line makes, if any: blank lines, `#` comments,
      lines without `=` and lines with a blank key make none. */
  function ParseEnvLine(raw: string): (r: Option<Assignment>)
    ensures r.Some? ==> r.value.key != "" && IsStripped(r.value.key) && '=' !in r.value.key
  {
    ParseStripped(Strip(raw))
  }

  /** The same, once the line is stripped. */
  function ParseStripped(line: string): (r: Option<Assignment>)
    ensures r.Some? ==> r.value.key != "" && IsStripped(r.value.key) && '=' !in r.value.key
  {
    if line == "" || line[0] == '#' || '=' !in line then None
    else
      var i := FirstIndex(line, '=');
      var key := Strip(line[..i]);
      assert '=' !in line[..i];
      StripKeepsOut(line[..i], '=');
      if key == "" then None else Some(Assignment(key, EnvValue(line[i + 1..])))
  }

  /** A line is skipped exactly when it is blank, a comment, has no `=`, or
      has only whitespace before its first `=`; otherwise the key is the text
      before the first `=` and the value the cleaned rest. */
  lemma ParseEnvLineIff(raw: string)
    ensures var line := Strip(raw);
      ParseEnvLine(raw).Some? <==>
        line != "" && line[0] != '#' && '=' in line && Strip(line[..FirstIndex(line, '=')]) != ""
    ensures var line := Strip(raw);
      ParseEnvLine(raw).Some? ==>
        ParseEnvLine(raw).value == Assignment(Strip(line[..FirstIndex(line, '=')]),
                                              EnvValue(line[FirstIndex(line, '=') + 1..]))
  {
  }

  lemma StripCharIsFixed(s: string, ch: char)
    requires s != [] ==> s[0] != ch && s[|s| - 1] != ch
    ensures StripChar(s, ch) == s
  {
    TrimFixed(s, {ch});
  }

  /** A key the parser accepts as it stands. */
  predicate PlainKey(k: string) {
    k != "" && IsStripped(k) && '=' !in k && k[0] != '#'
  }

  /** A value the cleaning leaves as it stands. */
  predicate PlainValue(v: string) {
    IsStripped(v) && (v != [] ==> v[0] != '"' && v[0] != '\'' && v[|v| - 1] != '"' && v[|v| - 1] != '\'')
  }

  lemma EnvValueOfPlain(v: string)
    requires PlainValue(v)
    ensures EnvValue(v) == v
  {
    StrippedIsFixed(v);
    StripCharIsFixed(v, '"');
    StripCharIsFixed(v, '\'');
  }

  /** In `key=value` with no `=` in the key, the first `=` separates the two. */
  lemma KeyValueLine(k: string, v: string)
    requires '=' !in k
    ensures var line := k + "=" + v;
      '=' in line && FirstIndex(line, '=') == |k| && line[..|k|] == k && line[|k| + 1..] == v
  {
    var line := k + "=" + v;
    assert line[|k|] == '=';
    assert forall j :: 0 <= j < |k| ==> line[j] == k[j];
    assert line[..|k|] == k;
    assert line[|k| + 1..] == v;
  }

  lemma PlainLineStripped(k: string, v: string)
    requires PlainKey(k) && PlainValue(v)
    ensures IsStripped(k + "=" + v)
  {
    var line := k + "=" + v;
    assert line[0] == k[0];
    assert line[|line| - 1] == if v == [] then '=' else v[|v| - 1];
  }

  /** A line that is already stripped is parsed as it stands. */
  lemma StrippedLineParse(line: string)
    requires IsStripped(line)
    ensures ParseEnvLine(line) == ParseStripped(line)
  {
    StrippedIsFixed(line);
  }

  /** Writing `key=value` and parsing the line gives the assignment back. */
  lemma ParseEnvLineRoundTrip(k: string, v: string)
    requires PlainKey(k) && PlainValue(v)
    ensures ParseEnvLine(k + "=" + v) == Some(Assignment(k, v))
  {
    var line := k + "=" + v;
    assert line[0] == k[0] && line[0] != '#';
    assert |k| < |line| && line[|k|] == '=' && line[..|k|] == k && line[|k| + 1..] == v
      && FirstIndex(line, '=') == |k| by {
      KeyValueLine(k, v);
    }
    assert Strip(k) == k by { StrippedIsFixed(k); }
    assert EnvValue(v) == v by { EnvValueOfPlain(v); }
    PlainLineStripped(k, v);
    StrippedLineParse(line);
  }

  /** The assignments of the file's lines, in order. */
  function LineAssignments(raw: string): seq<Assignment> {
    var p := ParseEnvLine(raw);
    if p.Some? then [p.value] else []
  }

  function Assignments(lines: seq<string>): seq<Assignment> {
    FlatMap(lines, LineAssignments)
  }

  /** `os.environ.setdefault(key, value)` */
  function SetDefault(vars: map<string, string>, a: Assignment): map<string, string> {
    if a.key in vars then vars else vars[a.key := a.value]
  }

  /** The environment after the assignments, one `setdefault` after another. */
  function Applied(vars: map<string, string>, asg: seq<Assignment>): map<string, string> {
    if asg == [] then vars else SetDefault(Applied(vars, asg[..|asg| - 1]), asg[|asg| - 1])
  }

  function KeysAssigned(asg: seq<Assignment>): (ks: seq<string>)
    ensures |ks| == |asg| && forall i :: 0 <= i < |asg| ==> ks[i] == asg[i].key
  {
    seq(|asg|, i requires 0 <= i < |asg| => asg[i].key)
  }

  /** What `load_env_file` leaves: the file's text when it is a readable
      file, or nothing (not a file, or reading it failed). */
  function LoadedEnv(vars: map<string, string>, contents: Option<string>): map<string, string> {
    if contents.None? then vars else Applied(vars, Assignments(SplitLines(contents.value)))
  }

  /** No variable already set changes; a new one is set exactly when some
      line assigns it, and then to the value of the first such line. */
  lemma {:induction false} AppliedFirstWins(vars: map<string, string>, asg: seq<Assignment>)
    ensures forall k :: k in vars ==> k in Applied(vars, asg) && Applied(vars, asg)[k] == vars[k]
    ensures forall k :: k !in vars ==> (k in Applied(vars, asg) <==> k in KeysAssigned(asg))
    ensures forall k :: k !in vars && k in KeysAssigned(asg) ==>
              Applied(vars, asg)[k] == asg[FirstIndex(KeysAssigned(asg), k)].value
  {
    if asg != [] {
      var front := asg[..|asg| - 1];
      var a := asg[|asg| - 1];
      AppliedFirstWins(vars, front);
      var ks := KeysAssigned(front);
      assert KeysAssigned(asg) == ks + [a.key];
      forall k | k !in vars && k in KeysAssigned(asg)
        ensures Applied(vars, asg)[k] == asg[FirstIndex(KeysAssigned(asg), k)].value
      {
        if k in ks {
          FirstIndexPrefix(ks, [a.key], k);
        } else {
          FirstIndexAppended(ks, k);
        }
      }
    }
  }

  /** The variables of `os.environ`, as `load_env_file` updates them. */
  class Environ {
    var vars: map<string, string>

    constructor(initial: map<string, string>)
      ensures vars == initial
    {
      vars := initial;
    }

    /** `os.environ.setdefault(key, value)` */
    method SetDefaultVar(key: string, value: string)
      modifies this
      ensures vars == SetDefault(old(vars), Assignment(key, value))
    {
      if key !in vars {
        vars := vars[key := value];
      }
    }
  }

  lemma AssignmentsSnoc(lines: seq<string>, i: nat)
    requires i < |lines|
    ensures Assignments(lines[..i + 1]) == Assignments(lines[..i]) + LineAssignments(lines[i])
  {
    assert lines[..i + 1][..i] == lines[..i];
  }

  lemma {:induction false} AppliedAppend(vars: map<string, string>, a: seq<Assignment>, b: seq<Assignment>)
    ensures Applied(vars, a + b) == Applied(Applied(vars, a), b)
    decreases |b|
  {
    if b == [] {
      assert a + b == a;
    } else {
      assert (a + b)[..|a + b| - 1] == a + b[..|b| - 1];
      AppliedAppend(vars, a, b[..|b| - 1]);
    }
  }

  /** One line of the file: parse it and `setdefault` what it assigns. */
  method LoadLine(env: Environ, raw: string)
    modifies env
    ensures env.vars == Applied(old(env.vars), LineAssignments(raw))
  {
    var r := ParseEnvLine(raw);
    if r.Some? {
      env.SetDefaultVar(r.value.key, r.value.value);
      assert [r.value][..0] == [];
    }
  }

  /** `load_env_file`: `contents` is the file's text, or `None` when the path
      is not a file or reading it raises `OSError`. */
  method LoadEnvFile(env: Environ, contents: Option<string>)
    modifies env
    ensures env.vars == LoadedEnv(old(env.vars), contents)
  {
    if contents.None? {
      return;
    }
    var lines := SplitLines(contents.value);
    var i := 0;
    while i < |lines|
      invariant i <= |lines|
      invariant env.vars == Applied(old(env.vars), Assignments(lines[..i]))
    {
      AssignmentsSnoc(lines, i);
      AppliedAppend(old(env.vars), Assignments(lines[..i]), LineAssignments(lines[i]));
      LoadLine(env, lines[i]);
      i := i + 1;
    }
    assert lines[..i] == lines;
  }

  /** A missing file leaves the environment unchanged; otherwise variables
      already set keep their values and each new one takes the value of the
      first line that assigns it. */
  lemma LoadedEnvFacts(vars: map<string, string>, contents: Option<string>)
    ensures contents.None? ==> LoadedEnv(vars, contents) == vars
    ensures forall k :: k in vars ==> k in LoadedEnv(vars, contents) && LoadedEnv(vars, contents)[k] == vars[k]
    ensures contents.Some? ==>
      var asg := Assignments(SplitLines(contents.value));
      forall k :: k !in vars ==>
        (k in LoadedEnv(vars, contents) <==> k in KeysAssigned(asg))
        && (k in KeysAssigned(asg) ==> LoadedEnv(vars, contents)[k] == asg[FirstIndex(KeysAssigned(asg), k)].value)
  {
    if contents.Some? {
      AppliedFirstWins(vars, Assignments(SplitLines(contents.value)));
    }
  }

  // ---------------------------------------------------------------------
  // collect_image_paths
  // ---------------------------------------------------------------------

  const SupportedImageExtensions: seq<string> := [".png", ".jpg", ".jpeg", ".gif", ".webp", ".bmp", ".tif", ".tiff"]

  /** The filesystem as `pathlib` sees it. */
  datatype FileSystem = FileSystem(
    expandUser: string -> string,
    resolve: string -> string,
    isFile: string -> bool,
    isDir: string -> bool,
    present: string -> bool,
    glob: (string, bool) -> seq<string>)

  /** `{ext.lower() for ext in supported_exts}`: the callers only ask
      whether a suffix is `in` it, so what matters is its membership. */
  function Supported(exts: seq<string>): (s: seq<string>)
    ensures forall x :: x in s <==> exists e :: e in exts && Lower(e) == x
    ensures |s| == |exts| && forall i :: 0 <= i < |exts| ==> s[i] == Lower(exts[i])
  {
    var s := seq(|exts|, i requires 0 <= i < |exts| => Lower(exts[i]));
    LoweredMembers(exts, s);
    s
  }

  /** A list that lower-cases `exts` element by element holds exactly the
      lower-cased extensions. */
  lemma LoweredMembers(exts: seq<string>, s: seq<string>)
    requires |s| == |exts| && forall i :: 0 <= i < |exts| ==> s[i] == Lower(exts[i])
    ensures forall x :: x in s <==> exists e :: e in exts && Lower(e) == x
  {
    forall x | x in s
      ensures exists e :: e in exts && Lower(e) == x
    {
      var i :| 0 <= i < |s| && s[i] == x;
      assert exts[i] in exts;
    }
    forall e | e in exts
      ensures Lower(e) in s
    {
      var i :| 0 <= i < |exts| && exts[i] == e;
      assert s[i] == Lower(e);
    }
  }

  /** `path.suffix.lower() in supported` */
  predicate HasSupportedSuffix(supported: seq<string>, path: string) {
    Lower(Suffix(PathName(path))) in supported
  }

  /** The test both `walk_directory` and `add_path` apply: a file with a
      supported suffix. */
  function Acceptor(fs: FileSystem, supported: seq<string>): string -> bool {
    p => fs.isFile(p) && HasSupportedSuffix(supported, p)
  }

  lemma AcceptorIff(fs: FileSystem, supported: seq<string>, p: string)
    ensures Acceptor(fs, supported)(p) <==> fs.isFile(p) && Lower(Suffix(PathName(p))) in supported
  {
  }

  /** With the supported set built from the configured extensions, a path
      is accepted exactly when it is a file whose lower-cased suffix is the
      lower-cased form of one of them. */
  lemma AcceptsConfigured(fs: FileSystem, exts: seq<string>, p: string)
    ensures Acceptor(fs, Supported(exts))(p) <==>
              fs.isFile(p) && exists e :: e in exts && Lower(e) == Lower(Suffix(PathName(p)))
  {
    AcceptorIff(fs, Supported(exts), p);
  }

  /** `add_path(path)` on the collected list: `resolve` is `Path.resolve`,
      `ok` the acceptance test. */
  function AddPathSpec(resolve: string -> string, ok: string -> bool, paths: seq<string>, path: string): seq<string> {
    var resolved := resolve(path);
    if resolved in paths || !ok(resolved) then paths else paths + [resolved]
  }

  /** `add_path` applied to each candidate in turn. */
  function AddAll(resolve: string -> string, ok: string -> bool, paths: seq<string>, cands: seq<string>): seq<string> {
    if cands == [] then paths
    else AddPathSpec(resolve, ok, AddAll(resolve, ok, paths, cands[..|cands| - 1]), cands[|cands| - 1])
  }

  /** The glob results `walk_directory` hands to `add_path`. */
  function WalkCandidates(fs: FileSystem, ok: string -> bool, dir: string, recursive: bool): seq<string> {
    if !fs.present(dir) then []
    else FlatMap(fs.glob(dir, recursive), Keep(ok))
  }

  /** The filter of `walk_directory`. */
  function Keep(ok: string -> bool): string -> seq<string> {
    c => if ok(c) then [c] else []
  }

  /** What one input contributes: the walk of a directory, or the path. */
  function InputCandidates(fs: FileSystem, ok: string -> bool, recursive: bool, raw: string): seq<string> {
    var path := fs.expandUser(raw);
    if fs.isDir(path) then WalkCandidates(fs, ok, path, recursive) else [path]
  }

  function EachInput(fs: FileSystem, ok: string -> bool, recursive: bool): string -> seq<string> {
    raw => InputCandidates(fs, ok, recursive, raw)
  }

  /** Every path `collect_image_paths` hands to `add_path`, in order. */
  function Candidates(fs: FileSystem, ok: string -> bool, inputs: seq<string>, inputDir: Option<string>, recursive: bool): seq<string> {
    FlatMap(inputs, EachInput(fs, ok, recursive))
    + (if inputDir.Some? then WalkCandidates(fs, ok, fs.expandUser(inputDir.value), recursive) else [])
  }

  /** The resolved candidates `add_path` accepts, repeats included. */
  function ResolvedAccepted(resolve: string -> string, ok: string -> bool, cands: seq<string>): seq<string> {
    FlatMap(cands, ResolveKeep(resolve, ok))
  }

  function ResolveKeep(resolve: string -> string, ok: string -> bool): string -> seq<string> {
    c => if ok(resolve(c)) then [resolve(c)] else []
  }

  lemma {:induction false} AddAllAppend(resolve: string -> string, ok: string -> bool, paths: seq<string>, a: seq<string>, b: seq<string>)
    ensures AddAll(resolve, ok, paths, a + b) == AddAll(resolve, ok, AddAll(resolve, ok, paths, a), b)
    decreases |b|
  {
    if b == [] {
      assert a + b == a;
    } else {
      assert (a + b)[..|a + b| - 1] == a + b[..|b| - 1];
      AddAllAppend(resolve, ok, paths, a, b[..|b| - 1]);
    }
  }

  /** Collecting from nothing keeps the first occurrence of each accepted
      resolved path, in encounter order. */
  lemma {:induction false} AddAllIsDedup(resolve: string -> string, ok: string -> bool, cands: seq<string>)
    ensures AddAll(resolve, ok, [], cands) == Dedup(ResolvedAccepted(resolve, ok, cands))
  {
    if cands != [] {
      var front := cands[..|cands| - 1];
      var c := cands[|cands| - 1];
      AddAllIsDedup(resolve, ok, front);
      var before := ResolvedAccepted(resolve, ok, front);
      DedupProps(before);
      assert ResolvedAccepted(resolve, ok, cands) == before + ResolveKeep(resolve, ok)(c);
      if ok(resolve(c)) {
        DedupSnoc(before, resolve(c));
      } else {
        assert before + [] == before;
      }
    }
  }

  /** A path is among the accepted resolved candidates exactly when some
      candidate resolves to it and it passes the test. */
  lemma ResolvedAcceptedMember(resolve: string -> string, ok: string -> bool, cands: seq<string>, x: string)
    ensures x in ResolvedAccepted(resolve, ok, cands) <==>
      exists i :: 0 <= i < |cands| && resolve(cands[i]) == x && ok(x)
  {
    var f := ResolveKeep(resolve, ok);
    if x in FlatMap(cands, f) {
      FlatMapMember(cands, f, x);
    }
    if exists i :: 0 <= i < |cands| && resolve(cands[i]) == x && ok(x) {
      var i :| 0 <= i < |cands| && resolve(cands[i]) == x && ok(x);
      FlatMapContains(cands, f, i, x);
    }
  }

  /** The collected paths have no duplicates, are each an accepted resolved
      candidate, include every accepted resolved candidate, and come in the
      order of their first encounter. */
  lemma CollectedFacts(resolve: string -> string, ok: string -> bool, cands: seq<string>)
    ensures var out := AddAll(resolve, ok, [], cands);
            var all := ResolvedAccepted(resolve, ok, cands);
      && NoDup(out)
      && (forall x :: x in out ==> ok(x))
      && (forall x :: x in out <==> exists i :: 0 <= i < |cands| && resolve(cands[i]) == x && ok(x))
      && (forall x :: x in out <==> x in all)
      && (forall i, j :: 0 <= i < j < |out| ==> FirstIndex(all, out[i]) < FirstIndex(all, out[j]))
  {
    var all := ResolvedAccepted(resolve, ok, cands);
    AddAllIsDedup(resolve, ok, cands);
    DedupProps(all);
    forall x ensures x in all <==> exists i :: 0 <= i < |cands| && resolve(cands[i]) == x && ok(x) {
      ResolvedAcceptedMember(resolve, ok, cands, x);
    }
  }

  /** The `seen` set of a collected list. */
  function Members(paths: seq<string>): set<string> {
    set x | x in paths
  }

  lemma MembersSnoc(paths: seq<string>, x: string)
    ensures Members(paths + [x]) == Members(paths) + {x}
  {
  }

  /** `add_path`, with the `seen` set and the list it updates. */
  method AddPath(fs: FileSystem, supported: seq<string>, seen: set<string>, paths: seq<string>, path: string)
    returns (seen': set<string>, paths': seq<string>)
    requires seen == Members(paths)
    ensures seen' == Members(paths')
    ensures paths' == AddPathSpec(fs.resolve, Acceptor(fs, supported), paths, path)
  {
    seen', paths' := seen, paths;
    var resolved := fs.resolve(path);
    if resolved in seen {
      return;
    }
    if !fs.isFile(resolved) {
      return;
    }
    if !HasSupportedSuffix(supported, resolved) {
      return;
    }
    seen' := seen + {resolved};
    paths' := paths + [resolved];
    MembersSnoc(paths, resolved);
  }

  /** `walk_directory(directory)` */
  method WalkDirectory(fs: FileSystem, supported: seq<string>, recursive: bool, seen: set<string>, paths: seq<string>, directory: string)
    returns (seen': set<string>, paths': seq<string>)
    requires seen == Members(paths)
    ensures seen' == Members(paths')
    ensures paths' == AddAll(fs.resolve, Acceptor(fs, supported), paths, WalkCandidates(fs, Acceptor(fs, supported), directory, recursive))
  {
    seen', paths' := seen, paths;
    if !fs.present(directory) {
      return;
    }
    var found := fs.glob(directory, recursive);
    var ok := Acceptor(fs, supported);
    var keep := Keep(ok);
    var i := 0;
    while i < |found|
      invariant i <= |found|
      invariant seen' == Members(paths')
      invariant paths' == AddAll(fs.resolve, ok, paths, FlatMap(found[..i], keep))
    {
      assert found[..i + 1] == found[..i] + [found[i]];
      seen', paths' := WalkCandidate(fs, supported, seen', paths', paths, found[..i], found[i]);
      i := i + 1;
    }
    assert found[..i] == found;
  }

  /** The body of the glob loop of `walk_directory`: `add_path` for a file
      with a supported suffix, nothing for anything else. */
  method WalkCandidate(fs: FileSystem, supported: seq<string>, seen: set<string>, paths: seq<string>,
                       start: seq<string>, done: seq<string>, candidate: string)
    returns (seen': set<string>, paths': seq<string>)
    requires seen == Members(paths)
    requires paths == AddAll(fs.resolve, Acceptor(fs, supported), start, FlatMap(done, Keep(Acceptor(fs, supported))))
    ensures seen' == Members(paths')
    ensures paths' == AddAll(fs.resolve, Acceptor(fs, supported), start, FlatMap(done + [candidate], Keep(Acceptor(fs, supported))))
  {
    WalkStep(fs, supported, start, done, candidate);
    seen', paths' := seen, paths;
    if fs.isFile(candidate) && HasSupportedSuffix(supported, candidate) {
      seen', paths' := AddPath(fs, supported, seen, paths, candidate);
    }
  }

  /** One glob result of `walk_directory`: an accepted one goes to `add_path`,
      any other leaves the list as it is. */
  lemma WalkStep(fs: FileSystem, supported: seq<string>, paths: seq<string>, done: seq<string>, candidate: string)
    ensures var ok := Acceptor(fs, supported);
      var before := AddAll(fs.resolve, ok, paths, FlatMap(done, Keep(ok)));
      AddAll(fs.resolve, ok, paths, FlatMap(done + [candidate], Keep(ok)))
        == if fs.isFile(candidate) && HasSupportedSuffix(supported, candidate)
           then AddPathSpec(fs.resolve, ok, before, candidate)
           else before
  {
    var ok := Acceptor(fs, supported);
    var keep := Keep(ok);
    FlatMapSnoc(done, candidate, keep);
    if ok(candidate) {
      AddAllAppend(fs.resolve, ok, paths, FlatMap(done, keep), [candidate]);
    } else {
      assert FlatMap(done, keep) + keep(candidate) == FlatMap(done, keep);
    }
  }

  /** One pass of the loop over `inputs`: walk a directory, add anything else. */
  method AddInput(fs: FileSystem, supported: seq<string>, recursive: bool, seen: set<string>, paths: seq<string>, raw: string)
    returns (seen': set<string>, paths': seq<string>)
    requires seen == Members(paths)
    ensures seen' == Members(paths')
    ensures paths' == AddAll(fs.resolve, Acceptor(fs, supported), paths, InputCandidates(fs, Acceptor(fs, supported), recursive, raw))
  {
    var path := fs.expandUser(raw);
    if fs.isDir(path) {
      seen', paths' := WalkDirectory(fs, supported, recursive, seen, paths, path);
    } else {
      seen', paths' := AddPath(fs, supported, seen, paths, path);
      assert AddAll(fs.resolve, Acceptor(fs, supported), paths', []) == paths';
    }
  }

  /** The loop of `collect_image_paths` over `inputs`, from nothing. */
  method CollectInputs(fs: FileSystem, supported: seq<string>, recursive: bool, inputs: seq<string>)
    returns (seen: set<string>, paths: seq<string>)
    ensures seen == Members(paths)
    ensures paths == AddAll(fs.resolve, Acceptor(fs, supported), [], FlatMap(inputs, EachInput(fs, Acceptor(fs, supported), recursive)))
  {
    var ok := Acceptor(fs, supported);
    var each := EachInput(fs, ok, recursive);
    seen, paths := {}, [];
    var i := 0;
    while i < |inputs|
      invariant i <= |inputs|
      invariant seen == Members(paths)
      invariant paths == AddAll(fs.resolve, ok, [], FlatMap(inputs[..i], each))
    {
      assert inputs[..i + 1][..i] == inputs[..i];
      var step := InputCandidates(fs, ok, recursive, inputs[i]);
      assert FlatMap(inputs[..i + 1], each) == FlatMap(inputs[..i], each) + step;
      AddAllAppend(fs.resolve, ok, [], FlatMap(inputs[..i], each), step);
      seen, paths := AddInput(fs, supported, recursive, seen, paths, inputs[i]);
      i := i + 1;
    }
    assert inputs[..i] == inputs;
  }

  /** `collect_image_paths(inputs, input_dir, recursive, supported_exts)` */
  method CollectImagePaths(fs: FileSystem, inputs: seq<string>, inputDir: Option<string>, recursive: bool, supportedExts: seq<string>)
    returns (paths: seq<string>)
    ensures var ok := Acceptor(fs, Supported(supportedExts));
      paths == AddAll(fs.resolve, ok, [], Candidates(fs, ok, inputs, inputDir, recursive))
  {
    var supported := Supported(supportedExts);
    var ok := Acceptor(fs, supported);
    var seen;
    seen, paths := CollectInputs(fs, supported, recursive, inputs);
    var tail := if inputDir.Some? then WalkCandidates(fs, ok, fs.expandUser(inputDir.value), recursive) else [];
    AddAllAppend(fs.resolve, ok, [], FlatMap(inputs, EachInput(fs, ok, recursive)), tail);
    if inputDir.Some? {
      seen, paths := WalkDirectory(fs, supported, recursive, seen, paths, fs.expandUser(inputDir.value));
    } else {
      assert AddAll(fs.resolve, ok, paths, []) == paths;
    }
  }

  // ---------------------------------------------------------------------
  // guess_mime_type and encode_image_as_data_url
  // ---------------------------------------------------------------------

  /** `mimetypes.guess_type(str(path))[0] or "image/png"`; `guess` stands for
      the `mimetypes` table. */
  function GuessMimeType(guess: string -> Option<string>, path: string): (r: string)
    ensures r != ""
    ensures guess(path).Some? && guess(path).value != "" ==> r == guess(path).value
    ensures guess(path).None? ==> r == "image/png"
  {
    var m := guess(path);
    if m.Some? && m.value != "" then m.value else "image/png"
  }

  /** The data URL of an already base64-encoded payload: `data:` then the
      media type, then `;base64,` and the payload (section 3 of RFC 2397). */
  function DataUrl(mimeType: string, encoded: string): string {
    "data:" + mimeType + ";base64," + encoded
  }

  /** The media type and payload of a base64 data URL, when it is one. */
  function SplitDataUrl(url: string): Option<(string, string)> {
    if |url| < 5 || url[..5] != "data:" then None
    else
      var rest := url[5..];
      if ';' !in rest then None
      else
        var i := FirstIndex(rest, ';');
        if |rest| - i < 8 || rest[i..i + 8] != ";base64," then None
        else Some((rest[..i], rest[i + 8..]))
  }

  /** A media type without parameters contains no `;`, and then the URL
      gives back the type and the payload. */
  lemma DataUrlRoundTrip(mimeType: string, encoded: string)
    requires ';' !in mimeType
    ensures SplitDataUrl(DataUrl(mimeType, encoded)) == Some((mimeType, encoded))
  {
    var url := DataUrl(mimeType, encoded);
    assert url[..5] == "data:";
    var rest := url[5..];
    assert rest == mimeType + ";base64," + encoded;
    assert rest[|mimeType|] == ';';
    var i := FirstIndex(rest, ';');
    assert forall j :: 0 <= j < |mimeType| ==> rest[j] == mimeType[j];
    assert i == |mimeType|;
    assert rest[i..i + 8] == ";base64,";
    assert rest[..i] == mimeType;
    assert rest[i + 8..] == encoded;
  }
}
