/** The application id in a GCE instance name (pkg/utils/gce.go): what follows the
    last hyphen. */
module InstanceName {
  import opened Prelude
  import opened Text

  function ExtractAppId(instanceName: string): Option<string> {
    var parts := Split(instanceName, '-');
    if |parts| < 2 then None else Some(parts[|parts| - 1])
  }

  lemma {:induction false} SplitLast(prefix: string, last: string, sep: char)
    requires sep !in last
    ensures var parts := Split(prefix + [sep] + last, sep);
            |parts| >= 2 && parts[|parts| - 1] == last
  {
    var s := prefix + [sep] + last;
    if prefix == "" {
      assert s[1..] == last;
      SplitWhole(last, sep);
    } else {
      assert s[1..] == prefix[1..] + [sep] + last;
      SplitLast(prefix[1..], last, sep);
    }
  }

  /** Extraction succeeds with id exactly when the name ends in a hyphen and the
      hyphen-free id. */
  lemma ExtractIff(name: string, id: string)
    ensures ExtractAppId(name) == Some(id) <==>
            '-' !in id && |id| < |name| && name[|name| - |id| - 1..] == "-" + id
  {
    if '-' !in id && |id| < |name| && name[|name| - |id| - 1..] == "-" + id {
      var prefix := name[..|name| - |id| - 1];
      assert name == prefix + ['-'] + id;
      SplitLast(prefix, id, '-');
    }
    if ExtractAppId(name) == Some(id) {
      var parts := Split(name, '-');
      JoinSplit(name, '-');
      JoinEnds(parts, '-');
    }
  }

  lemma {:induction false} JoinEnds(parts: seq<string>, sep: char)
    requires |parts| >= 2
    ensures var s, last := Join(parts, sep), parts[|parts| - 1];
            |last| < |s| && s[|s| - |last| - 1..] == [sep] + last
  {
    var s, last, t := Join(parts, sep), parts[|parts| - 1], Join(parts[1..], sep);
    assert s == parts[0] + [sep] + t;
    if |parts| == 2 {
      assert t == last;
      assert s[|s| - |last| - 1..] == [sep] + last;
    } else {
      JoinEnds(parts[1..], sep);
      assert s[|s| - |last| - 1..] == t[|t| - |last| - 1..];
    }
  }

  /** Extraction fails exactly on names without a hyphen. */
  lemma {:induction false} ExtractFailsIff(name: string)
    ensures ExtractAppId(name) == None <==> '-' !in name
  {
    if name != "" {
      ExtractFailsIff(name[1..]);
      assert name == [name[0]] + name[1..];
    }
  }
}
