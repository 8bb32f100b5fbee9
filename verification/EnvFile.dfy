/** The exported environment file (writeEnvFile in cmd/kms-client/main.go): one
    `export KEY="VALUE"` line a variable, sorted, newline-terminated. */
module EnvFile {
  import opened Prelude
  import opened Text
  import opened Sorting
  import opened Listing

  const EXPORT: string := "export "

  function RenderLine(key: string, value: string): string {
    EXPORT + key + "=\"" + value + "\""
  }

  lemma LessIsOrder()
    ensures StrictWeakOrder(Less)
  {
    forall x, y | Less(x, y) ensures !Less(y, x) {
      LessAsymmetric(x, y);
    }
    forall x, y, z | Less(x, y) ensures Less(x, z) || Less(z, y) {
      LessCotransitive(x, y, z);
    }
  }

  ghost predicate IsContent(content: string, env: Env) {
    exists lines :: IsSortedListing(lines, env) && content == Join(lines, '\n') + "\n"
  }

  ghost predicate IsSortedListing(lines: seq<string>, env: Env) {
    Sorted(lines, Less) && IsListing(lines, env, RenderLine)
  }

  method RenderEnvFile(envVars: Env) returns (content: string)
    ensures IsContent(content, envVars)
    ensures exists lines :: content == Join(lines, '\n') + "\n" && SpellsOut(lines, envVars)
  {
    var lines: seq<string> := [];
    var todo := envVars.Keys;
    ghost var done: Env := map[];
    ListingOfEmpty(RenderLine);
    while todo != {}
      invariant todo <= envVars.Keys
      invariant done == map k | k in envVars && k !in todo :: envVars[k]
      invariant IsListing(lines, done, RenderLine)
      decreases |todo|
    {
      var key :| key in todo;
      ListingExtend(lines, done, RenderLine, key, envVars[key]);
      lines := lines + [RenderLine(key, envVars[key])];
      todo := todo - {key};
      done := done[key := envVars[key]];
    }
    assert done == envVars;
    var slice := new string[|lines|](i requires 0 <= i < |lines| => lines[i]);
    assert slice[..] == lines;
    LessIsOrder();
    SortInPlace(slice, Less);
    ListingsArePermutations(lines, slice[..], envVars, RenderLine);
    assert IsSortedListing(slice[..], envVars);
    content := Join(slice[..], '\n') + "\n";
    LinesOfContent(content, envVars);
  }

  /** The lines of a content: one for each variable, spelt out, in byte order. */
  lemma LinesOfContent(content: string, env: Env)
    requires IsContent(content, env)
    ensures exists lines :: IsSortedListing(lines, env) && content == Join(lines, '\n') + "\n" && SpellsOut(lines, env)
  {
    var lines :| IsSortedListing(lines, env) && content == Join(lines, '\n') + "\n";
    ListingSize(lines, env, RenderLine);
    forall l ensures l in lines <==> exists k :: k in env && l == "export " + k + "=\"" + env[k] + "\"" {
      ListingMember(lines, env, RenderLine, l);
      assert forall k :: k in env ==> RenderLine(k, env[k]) == "export " + k + "=\"" + env[k] + "\"";
    }
  }

  ghost predicate SpellsOut(lines: seq<string>, env: Env) {
    && |lines| == |env|
    && (forall l :: l in lines <==> exists k :: k in env && l == "export " + k + "=\"" + env[k] + "\"")
    && (forall i, j :: 0 <= i < j < |lines| ==> !Less(lines[j], lines[i]))
  }

  /** The content is a function of the environment: no iteration order shows. */
  lemma ContentUnique(c: string, d: string, env: Env)
    requires IsContent(c, env) && IsContent(d, env)
    ensures c == d
  {
    var k :| IsSortedListing(k, env) && c == Join(k, '\n') + "\n";
    var l :| IsSortedListing(l, env) && d == Join(l, '\n') + "\n";
    ListingsArePermutations(k, l, env, RenderLine);
    forall x, y | x in k && y in k ensures x == y || Less(x, y) || Less(y, x) {
      LessTotal(x, y);
    }
    SortedUnique(k, l, Less);
  }

  // ------------------------------------------------------------------ reading

  /** Reads one rendered line: the key runs up to the first '='. */
  function ParseLine(line: string): Option<(string, string)> {
    if !(EXPORT <= line) then None
    else
      var parts := Split(line[|EXPORT|..], '=');
      var tail := Join(parts[1..], '=');
      if |parts| < 2 || |tail| < 2 then None else Some((parts[0], tail[1..|tail| - 1]))
  }

  /** A rendered line reads back as its variable exactly when the key holds no '='. */
  lemma ParseRenderedIff(key: string, value: string)
    ensures ParseLine(RenderLine(key, value)) == Some((key, value)) <==> '=' !in key
  {
    var line := RenderLine(key, value);
    var rest := line[|EXPORT|..];
    assert rest == key + ['='] + ("\"" + value + "\"");
    if '=' !in key {
      var tail := "\"" + value + "\"";
      SplitHead(key, tail, '=');
      assert Split(rest, '=')[1..] == Split(tail, '=');
      JoinSplit(tail, '=');
      assert tail[1..|tail| - 1] == value;
    } else {
      assert '=' !in Split(rest, '=')[0];
    }
  }

  predicate Exportable(key: string, value: string) {
    '=' !in key && '\n' !in key && '\n' !in value
  }

  ghost predicate Clean(env: Env) {
    forall k :: k in env ==> Exportable(k, env[k])
  }

  /** The lines of a file: its text up to the final newline, split. */
  function FileLines(content: string): seq<string> {
    if content == "" then [] else Split(content[..|content| - 1], '\n')
  }

  /** Reads a whole file back; lines that are no export line are skipped. */
  function ParseLines(lines: seq<string>): Env {
    if lines == [] then map[]
    else
      var env := ParseLines(lines[..|lines| - 1]);
      match ParseLine(lines[|lines| - 1])
      case Some((k, v)) => env[k := v]
      case None => env
  }

  lemma CleanLine(key: string, value: string)
    requires Exportable(key, value)
    ensures '\n' !in RenderLine(key, value)
    ensures ParseLine(RenderLine(key, value)) == Some((key, value))
  {
    ParseRenderedIff(key, value);
  }

  /** Parsing sorted lines of a clean environment yields the environment, whatever
      the order of the lines. */
  lemma {:induction false} ParseListing(lines: seq<string>, env: Env)
    requires Clean(env) && IsListing(lines, env, RenderLine)
    ensures ParseLines(lines) == env
  {
    forall l | l in lines ensures exists k :: k in env && l == RenderLine(k, env[k]) {
      ListingMember(lines, env, RenderLine, l);
    }
    ParseSubset(lines, env);
    forall k | k in env ensures k in ParseLines(lines) {
      ListingMember(lines, env, RenderLine, RenderLine(k, env[k]));
      ParseFinds(lines, env, k);
    }
  }

  ghost predicate LinesOf(lines: seq<string>, env: Env) {
    forall l :: l in lines ==> exists k :: k in env && l == RenderLine(k, env[k])
  }

  lemma {:induction false} ParseSubset(lines: seq<string>, env: Env)
    requires Clean(env) && LinesOf(lines, env)
    ensures forall k :: k in ParseLines(lines) ==> k in env && ParseLines(lines)[k] == env[k]
  {
    if lines != [] {
      var init, last := lines[..|lines| - 1], lines[|lines| - 1];
      assert last in lines && forall l :: l in init ==> l in lines;
      ParseSubset(init, env);
      var k :| k in env && last == RenderLine(k, env[k]);
      CleanLine(k, env[k]);
    }
  }

  lemma {:induction false} ParseFinds(lines: seq<string>, env: Env, k: string)
    requires Clean(env) && LinesOf(lines, env)
    requires k in env && RenderLine(k, env[k]) in lines
    ensures k in ParseLines(lines)
  {
    var init, last := lines[..|lines| - 1], lines[|lines| - 1];
    CleanLine(k, env[k]);
    if last != RenderLine(k, env[k]) {
      assert lines == init + [last];
      assert forall l :: l in init ==> l in lines;
      ParseFinds(init, env, k);
    }
  }

  lemma CleanReadsBack(content: string, env: Env)
    requires IsContent(content, env) && Clean(env)
    ensures ParseLines(FileLines(content)) == env
  {
    var lines :| IsSortedListing(lines, env) && content == Join(lines, '\n') + "\n";
    assert content[..|content| - 1] == Join(lines, '\n');
    forall i | 0 <= i < |lines| ensures '\n' !in lines[i] {
      ListingMember(lines, env, RenderLine, lines[i]);
      var k :| k in env && RenderLine(k, env[k]) == lines[i];
      CleanLine(k, env[k]);
    }
    if lines == [] {
      ListingSize(lines, env, RenderLine);
      assert FileLines(content) == [""];
      assert ParseLine("") == None;
      assert ParseLines([""]) == ParseLines([""][..0]);
    } else {
      SplitJoin(lines, '\n');
      ParseListing(lines, env);
    }
  }

  /** Whatever reads back from a line without newline could have been exported. */
  lemma ParsedIsExportable(line: string)
    requires '\n' !in line && ParseLine(line).Some?
    ensures Exportable(ParseLine(line).value.0, ParseLine(line).value.1)
  {
    var rest := line[|EXPORT|..];
    var parts := Split(rest, '=');
    var tail := Join(parts[1..], '=');
    JoinSplit(rest, '=');
    assert rest == parts[0] + ['='] + tail;
    assert forall c :: c in parts[0] || c in tail ==> c in rest;
    assert forall c :: c in rest ==> c in line;
    assert forall c :: c in tail[1..|tail| - 1] ==> c in tail;
  }

  lemma {:induction false} ParsedIsClean(lines: seq<string>)
    requires forall i :: 0 <= i < |lines| ==> '\n' !in lines[i]
    ensures Clean(ParseLines(lines))
  {
    if lines != [] {
      var line := lines[|lines| - 1];
      ParsedIsClean(lines[..|lines| - 1]);
      if ParseLine(line).Some? {
        ParsedIsExportable(line);
      }
    }
  }

  /** The file content reads back as the environment exactly when no key holds '=' or a
      newline and no value holds a newline. */
  lemma FileRoundTripIff(content: string, env: Env)
    requires IsContent(content, env)
    ensures ParseLines(FileLines(content)) == env <==> Clean(env)
  {
    if Clean(env) {
      CleanReadsBack(content, env);
    }
    ParsedIsClean(FileLines(content));
  }

  /** The content determines a clean environment. */
  lemma ContentInjective(content: string, a: Env, b: Env)
    requires IsContent(content, a) && IsContent(content, b)
    requires Clean(a) && Clean(b)
    ensures a == b
  {
    CleanReadsBack(content, a);
    CleanReadsBack(content, b);
  }

  lemma OneLineFile(key: string, value: string)
    ensures IsContent(RenderLine(key, value) + "\n", map[key := value])
  {
    var line := RenderLine(key, value);
    ListingOfEmpty(RenderLine);
    ListingExtend([], map[], RenderLine, key, value);
    assert [] + [line] == [line];
    assert IsSortedListing([line], map[key := value]);
  }

  lemma TwoLineFile(k1: string, v1: string, k2: string, v2: string)
    requires k1 != k2 && !Less(RenderLine(k2, v2), RenderLine(k1, v1))
    ensures IsContent(RenderLine(k1, v1) + "\n" + RenderLine(k2, v2) + "\n", map[k1 := v1, k2 := v2])
  {
    var a, b := RenderLine(k1, v1), RenderLine(k2, v2);
    ListingOfEmpty(RenderLine);
    ListingExtend([], map[], RenderLine, k1, v1);
    assert [] + [a] == [a];
    ListingExtend([a], map[k1 := v1], RenderLine, k2, v2);
    assert [a] + [b] == [a, b];
    assert IsSortedListing([a, b], map[k1 := v1, k2 := v2]);
    assert [a, b][1..] == [b];
    assert Join([a, b], '\n') == a + ['\n'] + b;
  }

  /** Without the restriction it does not: a key with '=' renders like another variable. */
  lemma EqualsSignCollides(key: string, middle: string, value: string)
    ensures exists c ::
      IsContent(c, map[key + "=\"" + middle := value]) && IsContent(c, map[key := middle + "=\"" + value])
  {
    OneLineFile(key + "=\"" + middle, value);
    OneLineFile(key, middle + "=\"" + value);
    assert RenderLine(key + "=\"" + middle, value) == RenderLine(key, middle + "=\"" + value);
  }

  /** And a value with a newline renders like two variables. */
  lemma NewlineCollides(k1: string, v1: string, k2: string, v2: string)
    requires k1 != k2 && !Less(RenderLine(k2, v2), RenderLine(k1, v1))
    ensures exists c ::
      IsContent(c, map[k1 := v1 + "\"\n" + EXPORT + k2 + "=\"" + v2]) && IsContent(c, map[k1 := v1, k2 := v2])
  {
    var both := v1 + "\"\n" + EXPORT + k2 + "=\"" + v2;
    OneLineFile(k1, both);
    TwoLineFile(k1, v1, k2, v2);
    assert RenderLine(k1, both) == RenderLine(k1, v1) + "\n" + RenderLine(k2, v2);
  }
}
