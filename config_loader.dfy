/**
 * The `key=value` configuration file of the core functions.  The loader reads
 * the file once into a dictionary; lookups prefer that dictionary, then the
 * process environment (when asked to), then the caller's default.  The file
 * system and the environment are parameters.
 */
module ConfigLoader {
  import opened Common

  /** What opening and reading the configuration file yields. */
  datatype ConfigFile =
    | Missing                    // the path does not exist
    | Present(lines: seq<string>) // the lines as read, line endings included
    | ReadFails                  // opening or reading raised

  /** The index of the first `c` in `s`. */
  function FirstIndex(s: string, c: char): (i: nat)
    requires c in s
    ensures i < |s| && s[i] == c && c !in s[..i]
  {
    if s[0] == c then 0
    else
      var i := 1 + FirstIndex(s[1..], c);
      assert s[..i] == [s[0]] + s[1..][..i - 1];
      i
  }

  /**
   * The (key, value) pair one line contributes, if any, where `ws` says what
   * counts as white space: after stripping, blank lines, comments and lines
   * without `=` contribute nothing; otherwise the line splits at its first `=`
   * and both halves are stripped.
   */
  function SplitLine(line: string, ws: char -> bool): (e: Option<(string, string)>)
  {
    var t := Strip(line, ws);
    if t == [] || t[0] == '#' || '=' !in t then None
    else
      var i := FirstIndex(t, '=');
      Some((Strip(t[..i], ws), Strip(t[i + 1..], ws)))
  }

  /** What a line of the file contributes, with Python's white space. */
  function Entry(line: string): Option<(string, string)> {
    SplitLine(line, PyWhitespace)
  }

  /**
   * The dictionary after reading `lines` in order, where `entry` says what
   * each line contributes; a later key overwrites an earlier one.
   */
  function Parse(lines: seq<string>, entry: string -> Option<(string, string)>): map<string, string>
  {
    if lines == [] then map[]
    else
      var config := Parse(lines[..|lines| - 1], entry);
      match entry(lines[|lines| - 1])
      case Some((k, v)) => config[k := v]
      case None => config
  }

  /** The dictionary a configuration file's lines give. */
  function ParseLines(lines: seq<string>): map<string, string> {
    Parse(lines, Entry)
  }

  /**
   * An entry's key holds no `=`: the split is at the first one, so any
   * further `=` belongs to the value.
   */
  lemma SplitLineShape(line: string, ws: char -> bool)
    requires SplitLine(line, ws).Some?
    ensures '=' !in SplitLine(line, ws).value.0
  {
    var t := Strip(line, ws);
    var i := FirstIndex(t, '=');
    StripOmits(t[..i], ws, '=');
  }

  /**
   * A key is in the dictionary exactly when some line defines it, and its
   * value is the one given by the LAST line that defines it.
   */
  lemma {:induction false} ParseLookup(lines: seq<string>, entry: string -> Option<(string, string)>, key: string)
    ensures key in Parse(lines, entry) <==>
      exists i :: 0 <= i < |lines| && entry(lines[i]).Some? && entry(lines[i]).value.0 == key
    ensures key in Parse(lines, entry) ==>
      exists i :: 0 <= i < |lines| && entry(lines[i]) == Some((key, Parse(lines, entry)[key]))
        && forall j :: i < j < |lines| ==> !(entry(lines[j]).Some? && entry(lines[j]).value.0 == key)
    decreases |lines|
  {
    if lines != [] {
      var n := |lines| - 1;
      var init := lines[..n];
      ParseLookup(init, entry, key);
      assert forall i :: 0 <= i < n ==> init[i] == lines[i];
      var e := entry(lines[n]);
      if e.Some? && e.value.0 == key {
        assert e == Some((key, Parse(lines, entry)[key]));
      } else {
        assert key in Parse(lines, entry) <==> key in Parse(init, entry);
        if key in Parse(init, entry) {
          assert Parse(lines, entry)[key] == Parse(init, entry)[key];
          var i :| 0 <= i < n && entry(init[i]) == Some((key, Parse(init, entry)[key]))
            && forall j :: i < j < n ==> !(entry(init[j]).Some? && entry(init[j]).value.0 == key);
          assert entry(lines[i]) == Some((key, Parse(lines, entry)[key]));
        }
      }
    }
  }

  /** Reading one more line applies that line's entry. */
  lemma ParseStep(lines: seq<string>, i: nat, entry: string -> Option<(string, string)>)
    requires i < |lines|
    ensures entry(lines[i]).None? ==> Parse(lines[..i + 1], entry) == Parse(lines[..i], entry)
    ensures entry(lines[i]).Some? ==>
      Parse(lines[..i + 1], entry) == Parse(lines[..i], entry)[entry(lines[i]).value.0 := entry(lines[i]).value.1]
  {
    assert lines[..i + 1][..i] == lines[..i];
  }

  /** The loop of `_load_config` over the file's lines. */
  method ReadEntries(lines: seq<string>) returns (config: map<string, string>)
    ensures config == ParseLines(lines)
  {
    config := map[];
    var i := 0;
    while i < |lines|
      invariant 0 <= i <= |lines|
      invariant config == Parse(lines[..i], Entry)
    {
      var line := Strip(lines[i], PyWhitespace);
      if line == [] || line[0] == '#' {
        assert SplitLine(lines[i], PyWhitespace) == None;
      } else if '=' in line {
        var at := FirstIndex(line, '=');
        assert Entry(lines[i]) == Some((Strip(line[..at], PyWhitespace), Strip(line[at + 1..], PyWhitespace)));
        config := config[Strip(line[..at], PyWhitespace) := Strip(line[at + 1..], PyWhitespace)];
      } else {
        assert SplitLine(lines[i], PyWhitespace) == None;
      }
      ParseStep(lines, i, Entry);
      i := i + 1;
    }
    assert lines[..i] == lines;
  }

  /** The configuration loader; `config` is the dictionary read from the file. */
  class Loader {
    var config: map<string, string>

    /** Reads the file at construction. */
    constructor (file: ConfigFile)
      ensures config == (if file.Present? then ParseLines(file.lines) else map[])
    {
      config := map[];
      new;
      LoadConfig(file);
    }

    /**
     * `_load_config`: the dictionary of the file's entries; empty when the
     * file is missing or cannot be read.
     */
    method LoadConfig(file: ConfigFile)
      modifies this
      ensures config == (if file.Present? then ParseLines(file.lines) else map[])
    {
      config := map[];
      if file.Present? {
        config := ReadEntries(file.lines);
      }
    }
    /**
     * `get`: the file's value; else, with `fallbackToEnv`, the environment's;
     * else `default`.
     */
    function Get(key: string, default: string, fallbackToEnv: bool, env: map<string, string>): (r: string)
      reads this
      ensures key in config ==> r == config[key]
      ensures key !in config && fallbackToEnv && key in env ==> r == env[key]
      ensures key !in config && (!fallbackToEnv || key !in env) ==> r == default
    {
      if key in config then config[key]
      else if fallbackToEnv then (if key in env then env[key] else default)
      else default
    }

    /**
     * `get_bool`: true iff the looked-up value, lower-cased, is "true", "1" or
     * "yes"; the default takes part as "true" or "false", so a key found
     * nowhere yields the default itself.
     */
    function GetBool(key: string, default: bool, fallbackToEnv: bool, env: map<string, string>): (r: bool)
      reads this
      ensures r <==> AsciiLower(Get(key, if default then "true" else "false", fallbackToEnv, env)) in {"true", "1", "yes"}
      ensures key !in config && (!fallbackToEnv || key !in env) ==> r == default
    {
      var value := Get(key, if default then "true" else "false", fallbackToEnv, env);
      assert AsciiLower("true") == "true" && AsciiLower("false") == "false";
      AsciiLower(value) in {"true", "1", "yes"}
    }
  }
}
