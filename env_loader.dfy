/**
 * The `.env` loader: once per process, the `KEY=VALUE` lines of a file are
 * copied into the environment, never replacing a variable that is already
 * set.  The file's text arrives as a parameter (`None` when the file does not
 * exist); the process environment is the `environ` map of the loader.
 */
module EnvLoader {
  import opened Wrappers
  import opened Text

  /** A stripped line that sets nothing: blank, a comment, or without `=`. */
  predicate Skipped(stripped: string) {
    stripped == [] || StartsWith(stripped, "#") || '=' !in stripped
  }

  /** The value as stored: whitespace, then double quotes, then single quotes stripped from both ends. */
  function CleanValue(v: string): string {
    StripChar(StripChar(Strip(v), '"'), '\'')
  }

  /** The key and value one line asks for, split at its first `=`. */
  function ParseLine(line: string): (r: Option<(string, string)>)
    ensures r.None? <==> Skipped(Strip(line))
    ensures r.Some? ==> '=' !in r.value.0
  {
    var stripped := Strip(line);
    if Skipped(stripped) then None
    else
      var (key, value) := SplitOnce(stripped, '=').value;
      StripKeepsAbsent(key, '=');
      Some((Strip(key), CleanValue(value)))
  }

  /** What each line of a file asks for, line by line. */
  function ParsedLines(ls: seq<string>): (ps: seq<Option<(string, string)>>)
    ensures |ps| == |ls| && forall i :: 0 <= i < |ls| ==> ps[i] == ParseLine(ls[i])
  {
    if |ls| == 0 then [] else [ParseLine(ls[0])] + ParsedLines(ls[1..])
  }

  /**
   * The environment after the parsed lines `ps`, in order: a line sets its
   * key when the key is non-empty and not yet set.
   */
  function Store(env: map<string, string>, ps: seq<Option<(string, string)>>): map<string, string> {
    if |ps| == 0 then env
    else
      var e := Store(env, ps[..|ps| - 1]);
      match ps[|ps| - 1]
      case Some((k, v)) => if k != [] && k !in e then e[k := v] else e
      case None => e
  }

  /** One more line: `Store` of a prefix extended by the next parsed line. */
  lemma StoreStep(env: map<string, string>, ps: seq<Option<(string, string)>>, i: nat)
    requires i < |ps|
    ensures var e := Store(env, ps[..i]);
            Store(env, ps[..i + 1]) ==
              if ps[i].Some? && ps[i].value.0 != [] && ps[i].value.0 !in e then e[ps[i].value.0 := ps[i].value.1] else e
  {
    assert ps[..i + 1][..i] == ps[..i];
  }

  /** The key a parsed line sets when nothing else has set it, if any. */
  function KeyOf(p: Option<(string, string)>): Option<string> {
    match p
    case Some((k, _)) => if k != [] then Some(k) else None
    case None => None
  }

  // ---------------------------------------------------------------------
  // Properties of the line parser
  // ---------------------------------------------------------------------

  /** Splitting happens at the first `=`: the rest of the line, `=` included, is the value. */
  lemma SplitAtFirstEquals(line: string, a: string, b: string)
    requires Strip(line) == a + "=" + b && '=' !in a && !StartsWith(Strip(line), "#")
    ensures ParseLine(line) == Some((Strip(a), CleanValue(b)))
  {
    var s := Strip(line);
    assert s[|a|] == '=';
    var (key, value) := SplitOnce(s, '=').value;
    FirstSplitUnique(s, a, b, key, value);
  }

  /** Two ways to cut a string at an `=` that has none to its left are the same cut. */
  lemma FirstSplitUnique(s: string, a: string, b: string, a': string, b': string)
    requires s == a + "=" + b && '=' !in a
    requires s == a' + "=" + b' && '=' !in a'
    ensures a == a' && b == b'
  {
    assert forall k :: 0 <= k < |a| ==> s[k] == a[k];
    assert forall k :: 0 <= k < |a'| ==> s[k] == a'[k];
    assert s[|a|] == '=' && s[|a'|] == '=';
    assert |a| == |a'|;
    assert a == s[..|a|] == a';
    assert b == s[|a| + 1..] == b';
  }

  // ---------------------------------------------------------------------
  // Properties of loading
  // ---------------------------------------------------------------------

  /** A variable that is already set keeps its value; loading only adds variables. */
  lemma {:induction false} NeverOverwrites(env: map<string, string>, ps: seq<Option<(string, string)>>, k: string)
    requires k in env
    ensures k in Store(env, ps) && Store(env, ps)[k] == env[k]
  {
    if |ps| > 0 {
      NeverOverwrites(env, ps[..|ps| - 1], k);
    }
  }

  /** Every variable after loading was set before or comes from a line of the file. */
  lemma {:induction false} OnlyFileKeys(env: map<string, string>, ps: seq<Option<(string, string)>>, k: string)
    requires k in Store(env, ps) && k !in env
    ensures exists i :: 0 <= i < |ps| && KeyOf(ps[i]) == Some(k)
  {
    if |ps| > 0 {
      var init := ps[..|ps| - 1];
      if k in Store(env, init) {
        OnlyFileKeys(env, init, k);
        var i :| 0 <= i < |init| && KeyOf(init[i]) == Some(k);
        assert ps[i] == init[i];
      } else {
        assert KeyOf(ps[|ps| - 1]) == Some(k);
      }
    }
  }

  /**
   * For a key the environment does not have, the first line that sets it
   * wins: its value is the one stored, whatever later lines say.
   */
  lemma {:induction false} FirstWins(env: map<string, string>, ps: seq<Option<(string, string)>>, i: nat, k: string,
                                     v: string)
    requires i < |ps| && ps[i] == Some((k, v)) && k != [] && k !in env
    requires forall j :: 0 <= j < i ==> KeyOf(ps[j]) != Some(k)
    ensures k in Store(env, ps) && Store(env, ps)[k] == v
  {
    var init := ps[..|ps| - 1];
    if i == |ps| - 1 {
      assert forall j :: 0 <= j < |init| ==> init[j] == ps[j];
      NotSetBefore(env, init, k);
    } else {
      assert init[i] == ps[i];
      assert forall j :: 0 <= j < i ==> init[j] == ps[j];
      FirstWins(env, init, i, k, v);
    }
  }

  /** A key no line sets stays unset. */
  lemma {:induction false} NotSetBefore(env: map<string, string>, ps: seq<Option<(string, string)>>, k: string)
    requires k !in env && forall j :: 0 <= j < |ps| ==> KeyOf(ps[j]) != Some(k)
    ensures k !in Store(env, ps)
  {
    if |ps| > 0 {
      var init := ps[..|ps| - 1];
      assert forall j :: 0 <= j < |init| ==> init[j] == ps[j];
      NotSetBefore(env, init, k);
    }
  }

  /** Every key the file sets is present after loading it. */
  lemma {:induction false} FileKeysPresent(env: map<string, string>, ps: seq<Option<(string, string)>>, i: nat)
    requires i < |ps| && KeyOf(ps[i]).Some?
    ensures KeyOf(ps[i]).value in Store(env, ps)
  {
    var init := ps[..|ps| - 1];
    if i < |ps| - 1 {
      assert init[i] == ps[i];
      FileKeysPresent(env, init, i);
      NeverOverwrites(Store(env, init), [ps[|ps| - 1]], KeyOf(ps[i]).value);
      assert Store(Store(env, init), [ps[|ps| - 1]]) == Store(env, ps);
    }
  }

  /** Lines whose keys are all present already change nothing. */
  lemma {:induction false} StorePresent(env: map<string, string>, ps: seq<Option<(string, string)>>)
    requires forall j :: 0 <= j < |ps| ==> KeyOf(ps[j]).Some? ==> KeyOf(ps[j]).value in env
    ensures Store(env, ps) == env
  {
    if |ps| > 0 {
      var init := ps[..|ps| - 1];
      assert forall j :: 0 <= j < |init| ==> init[j] == ps[j];
      StorePresent(env, init);
    }
  }

  /** Loading the same file a second time, without the once-only flag, still changes nothing. */
  lemma ReloadNoChange(env: map<string, string>, ps: seq<Option<(string, string)>>)
    ensures Store(Store(env, ps), ps) == Store(env, ps)
  {
    forall j | 0 <= j < |ps| && KeyOf(ps[j]).Some? ensures KeyOf(ps[j]).value in Store(env, ps) {
      FileKeysPresent(env, ps, j);
    }
    StorePresent(Store(env, ps), ps);
  }

  /** A blank line, which the line splitter may produce where `splitlines` does not, sets nothing. */
  lemma BlankLineSkipped()
    ensures ParseLine("") == None
  {
    assert Strip("") == [];
  }

  // ---------------------------------------------------------------------
  // The loader
  // ---------------------------------------------------------------------

  class EnvLoader {
    /** The module-level "already loaded" flag. */
    var loaded: bool
    /** The process environment. */
    var environ: map<string, string>

    constructor(environ: map<string, string>)
      ensures !loaded && this.environ == environ
    {
      loaded := false;
      this.environ := environ;
    }

    /**
     * `load_env`: nothing once loaded; a missing file only sets the flag;
     * otherwise every line of the file is parsed and applied in order,
     * skipped lines setting nothing, then the flag is set.
     */
    method LoadEnv(fileText: Option<string>)
      modifies this
      ensures loaded
      ensures environ ==
        if old(loaded) || fileText.None? then old(environ) else Store(old(environ), ParsedLines(Lines(fileText.value)))
    {
      if loaded {
        return;
      }
      if fileText.None? {
        loaded := true;
        return;
      }
      ApplyLines(Lines(fileText.value));
      loaded := true;
    }

    /**
     * The loop of `load_env` over the lines of the file.  The updates are
     * collected in a local copy of the environment that is written back
     * once at the end; nothing reads the environment in between.
     */
    method ApplyLines(lines: seq<string>)
      modifies this
      ensures loaded == old(loaded)
      ensures environ == Store(old(environ), ParsedLines(lines))
    {
      ghost var ps := ParsedLines(lines);
      var env := environ;
      var i := 0;
      while i < |lines|
        invariant 0 <= i <= |lines|
        invariant loaded == old(loaded)
        invariant env == Store(old(environ), ps[..i])
      {
        var entry := ParseLine(lines[i]);
        StoreStep(old(environ), ps, i);
        assert entry == ps[i];
        if entry.None? {
          i := i + 1;
          continue;
        }
        var (key, value) := entry.value;
        if key != [] && key !in env {
          env := env[key := value];
        }
        i := i + 1;
      }
      assert ps[..i] == ps;
      environ := env;
    }
  }
}
