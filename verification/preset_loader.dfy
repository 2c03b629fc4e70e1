/** load_preset_path of create_gps.py: read `lat,lon` lines until the first
    one that does not parse, keeping the pairs read before it. A missing
    file yields an empty path. Float parsing itself is a parameter. */
module PresetLoader {
  import opened Common

  /** float() applied to one field: a value, or None when it raises. */
  type RealParser = string -> Option<real>

  /** The whitespace characters str.strip() removes, restricted to ASCII. */
  predicate IsSpace(c: char) {
    c == ' ' || c == '\t' || c == '\n' || c == '\r' || c == '\U{0B}' || c == '\U{0C}'
    || c == '\U{1C}' || c == '\U{1D}' || c == '\U{1E}' || c == '\U{1F}'
  }

  /** `s` without its leading whitespace. */
  function TrimStart(s: string): (r: string)
    ensures |r| <= |s| && r == s[|s| - |r|..]
    ensures forall i :: 0 <= i < |s| - |r| ==> IsSpace(s[i])
    ensures r == [] || !IsSpace(r[0])
    decreases |s|
  {
    if |s| > 0 && IsSpace(s[0]) then TrimStart(s[1..]) else s
  }

  /** `s` without its trailing whitespace. */
  function TrimEnd(s: string): (r: string)
    ensures |r| <= |s| && r == s[..|r|]
    ensures forall i :: |r| <= i < |s| ==> IsSpace(s[i])
    ensures r == [] || !IsSpace(r[|r| - 1])
    decreases |s|
  {
    if |s| > 0 && IsSpace(s[|s| - 1]) then TrimEnd(s[..|s| - 1]) else s
  }

  /** str.strip(). */
  function Strip(s: string): string {
    TrimEnd(TrimStart(s))
  }

  /** The fields joined back with the separator between them. */
  function Join(fields: seq<string>, sep: char): string
    requires |fields| > 0
    decreases |fields|
  {
    if |fields| == 1 then fields[0] else fields[0] + [sep] + Join(fields[1..], sep)
  }

  /** str.split(sep) for a one-character separator: the fields between
      separators, never fewer than one. Joining them back gives the input,
      and no field contains the separator. */
  function Split(s: string, sep: char): (r: seq<string>)
    ensures |r| > 0
    ensures Join(r, sep) == s
    ensures forall i :: 0 <= i < |r| ==> sep !in r[i]
    decreases |s|
  {
    if |s| == 0 then [""]
    else
      var rest := Split(s[1..], sep);
      if s[0] == sep then
        [""] + rest
      else
        JoinCons(s[0], rest, sep);
        [[s[0]] + rest[0]] + rest[1..]
  }

  lemma JoinCons(c: char, fields: seq<string>, sep: char)
    requires |fields| > 0
    ensures Join([[c] + fields[0]] + fields[1..], sep) == [c] + Join(fields, sep)
  {
    var g := [[c] + fields[0]] + fields[1..];
    assert g[1..] == fields[1..];
  }

  /** `t` has exactly one comma, at index `k`. */
  predicate OneCommaAt(t: string, k: int) {
    0 <= k < |t| && t[k] == ',' && ',' !in t[..k] && ',' !in t[k + 1..]
  }

  /** If `t` is `a`, a comma, then `b`, with no comma in `a`, and `t` has a
      single comma at `k`, then that comma is the one after `a`. */
  lemma CommaSplitsAt(t: string, a: string, b: string, k: int)
    requires t == a + [','] + b && ',' !in a
    requires OneCommaAt(t, k)
    ensures |a| == k && a == t[..k] && b == t[k + 1..]
  {
    assert forall i :: 0 <= i < |a| ==> t[i] == a[i];
    assert t[|a|] == ',';
  }

  /** Splitting on commas gives two fields exactly when there is one comma,
      and then the fields are the text before and after it. */
  lemma SplitTwoFields(t: string)
    ensures |Split(t, ',')| == 2 ==> OneCommaAt(t, |Split(t, ',')[0]|)
    ensures forall k :: OneCommaAt(t, k) ==>
              Split(t, ',') == [t[..k], t[k + 1..]]
  {
    var r := Split(t, ',');
    if |r| == 2 {
      assert Join(r[1..], ',') == r[1];
      assert t == r[0] + [','] + r[1];
      assert t[..|r[0]|] == r[0];
      assert t[|r[0]| + 1..] == r[1];
    }
    forall k | OneCommaAt(t, k)
      ensures r == [t[..k], t[k + 1..]]
    {
      assert |r| != 1;
      var tail := Join(r[1..], ',');
      assert t == r[0] + [','] + tail;
      CommaSplitsAt(t, r[0], tail, k);
      assert |r| == 2;
    }
  }

  /** One line of the preset file: strip it, split on commas, and unpack
      exactly two fields into floats; None where the source raises. */
  function ParseLine(line: string, parse: RealParser): Option<Position> {
    var fields := Split(Strip(line), ',');
    if |fields| != 2 then None
    else
      match (parse(fields[0]), parse(fields[1]))
      case (Some(lat), Some(lon)) => Some(Position(lat, lon))
      case _ => None
  }

  /** A line yields a pair exactly when its stripped text has a single
      comma and the text on both sides of it parses; the pair is then
      (left, right). */
  lemma ParseLineMeaning(line: string, parse: RealParser)
    ensures var t := Strip(line);
            ParseLine(line, parse).Some? ==>
              exists k :: OneCommaAt(t, k)
                && parse(t[..k]) == Some(ParseLine(line, parse).value.latitude)
                && parse(t[k + 1..]) == Some(ParseLine(line, parse).value.longitude)
    ensures var t := Strip(line);
            forall k :: OneCommaAt(t, k) && parse(t[..k]).Some? && parse(t[k + 1..]).Some? ==>
              ParseLine(line, parse) == Some(Position(parse(t[..k]).value, parse(t[k + 1..]).value))
  {
    SplitTwoFields(Strip(line));
  }

  /** The file's lines read in order, stopping at the first malformed one. */
  function LoadLines(lines: seq<string>, parse: RealParser): (path: seq<Position>)
    ensures |path| <= |lines|
    ensures forall i :: 0 <= i < |path| ==> ParseLine(lines[i], parse) == Some(path[i])
    ensures |path| < |lines| ==> ParseLine(lines[|path|], parse).None?
    decreases |lines|
  {
    if |lines| == 0 then []
    else
      match ParseLine(lines[0], parse)
      case None => []
      case Some(p) =>
        [p] + LoadLines(lines[1..], parse)
  }

  /** load_preset_path. `file` is None when the file cannot be opened. */
  function LoadPresetPath(file: Option<seq<string>>, parse: RealParser): (path: seq<Position>)
    ensures file.None? ==> path == []
    ensures file.Some? ==> path == LoadLines(file.value, parse)
  {
    match file
    case None => []
    case Some(lines) => LoadLines(lines, parse)
  }

  /** A malformed first line yields an empty path, whatever follows. */
  lemma MalformedFirstLine(lines: seq<string>, parse: RealParser)
    requires |lines| > 0 && ParseLine(lines[0], parse).None?
    ensures LoadPresetPath(Some(lines), parse) == []
  {
  }

  /** Lines after a malformed one never matter, and the pairs before it
      are kept: loading a file that ends in more lines extends the path
      read from its first part. */
  lemma {:induction false} LoadExtends(lines: seq<string>, more: seq<string>, parse: RealParser)
    ensures LoadLines(lines, parse) <= LoadLines(lines + more, parse)
    ensures |LoadLines(lines, parse)| < |lines| ==>
              LoadLines(lines + more, parse) == LoadLines(lines, parse)
    decreases |lines|
  {
    if |lines| > 0 {
      assert (lines + more)[0] == lines[0];
      assert (lines + more)[1..] == lines[1..] + more;
      LoadExtends(lines[1..], more, parse);
    }
  }
}
