/**
 * The hand-written `.env` loader at the top of the backend: every line that
 * holds a `=` is split at its first `=` and written into the process
 * environment, later lines overwriting earlier ones.
 */
module DotEnv {
  import opened Options
  import opened Text

  /** A value after stripping whitespace, then double quotes, then single quotes. */
  function EnvValue(raw: string): string {
    Strip(Strip(PyStrip(raw), {'"'}), {'\''})
  }

  /**
   * `k, v = line.split("=", 1)`: None for a line without `=` (the loop skips
   * it). Otherwise the stripped key, which holds no `=`, and the value, which
   * may.
   */
  function ParseEnvLine(line: string): (r: Option<(string, string)>)
    ensures r.None? <==> '=' !in line
    ensures r.Some? ==> '=' !in r.value.0 && IsStripped(r.value.0, PyWhitespace)
  {
    match IndexOf(line, '=')
    case None => None
    case Some(i) =>
      StripKeepsAbsent(line[..i], PyWhitespace, '=');
      Some((PyStrip(line[..i]), EnvValue(line[i + 1..])))
  }

  /** The line is cut at its first `=`: everything after it, further `=` included, is the value. */
  lemma SplitsAtFirstEquals(key: string, value: string)
    requires '=' !in key
    ensures ParseEnvLine(key + "=" + value) == Some((PyStrip(key), EnvValue(value)))
  {
    var line := key + "=" + value;
    assert line[|key|] == '=';
    var i := IndexOf(line, '=').value;
    assert i == |key|;
    assert line[..i] == key;
    assert line[i + 1..] == value;
  }

  /**
   * POSIX `putenv`/`setenv` accept the pair: a non-empty name and no NUL
   * character in name or value. Otherwise the assignment raises and, since the
   * loop runs at import time, the backend does not start.
   */
  predicate Settable(key: string, value: string) {
    key != "" && '\0' !in key && '\0' !in value
  }

  /** One loop iteration: None when the assignment raises. */
  function Assign(env: map<string, string>, line: string): Option<map<string, string>> {
    match ParseEnvLine(line)
    case None => Some(env)
    case Some((k, v)) => if Settable(k, v) then Some(env[k := v]) else None
  }

  /** The environment after the loop has read `lines` in order; None when one of them raises. */
  function Loaded(env: map<string, string>, lines: seq<string>): Option<map<string, string>>
    decreases |lines|
  {
    if lines == [] then Some(env)
    else match Loaded(env, lines[..|lines| - 1])
      case None => None
      case Some(e) => Assign(e, lines[|lines| - 1])
  }

  /** A line the loop passes without raising. */
  predicate Harmless(line: string) {
    match ParseEnvLine(line)
    case None => true
    case Some((k, v)) => Settable(k, v)
  }

  lemma AssignSucceedsIff(env: map<string, string>, line: string)
    ensures Assign(env, line).Some? <==> Harmless(line)
  {
  }

  function Lookup(env: map<string, string>, key: string): Option<string> {
    if key in env then Some(env[key]) else None
  }

  /** The value of the last line whose key is `key`, scanning from the end. */
  function LastValue(lines: seq<string>, key: string): Option<string>
    decreases |lines|
  {
    if lines == [] then None
    else match ParseEnvLine(lines[|lines| - 1])
      case Some((k, v)) => if k == key then Some(v) else LastValue(lines[..|lines| - 1], key)
      case None => LastValue(lines[..|lines| - 1], key)
  }

  /** Loading succeeds exactly when no line raises. */
  lemma LoadedSucceedsIff(env: map<string, string>, lines: seq<string>)
    ensures Loaded(env, lines).Some? <==> forall i :: 0 <= i < |lines| ==> Harmless(lines[i])
  {
    LoadedPrefixSucceedsIff(env, lines, |lines|);
    assert lines[..|lines|] == lines;
  }

  lemma {:induction false} LoadedPrefixSucceedsIff(env: map<string, string>, lines: seq<string>, n: nat)
    requires n <= |lines|
    ensures Loaded(env, lines[..n]).Some? <==> forall i :: 0 <= i < n ==> Harmless(lines[i])
  {
    if n > 0 {
      LoadedPrefixSucceedsIff(env, lines, n - 1);
      var prefix := lines[..n];
      assert prefix[..n - 1] == lines[..n - 1];
      var before := Loaded(env, lines[..n - 1]);
      assert Loaded(env, prefix) == if before.None? then None else Assign(before.value, lines[n - 1]);
      if before.Some? {
        AssignSucceedsIff(before.value, lines[n - 1]);
      }
      assert (forall i :: 0 <= i < n ==> Harmless(lines[i])) <==>
        (forall i :: 0 <= i < n - 1 ==> Harmless(lines[i])) && Harmless(lines[n - 1]);
    }
  }

  /**
   * After a successful load each key holds the value of the last line that
   * names it; a key no line names keeps what the environment held before.
   */
  lemma {:induction false} LastAssignmentWins(env: map<string, string>, lines: seq<string>, key: string)
    requires Loaded(env, lines).Some?
    ensures Lookup(Loaded(env, lines).value, key) ==
      match LastValue(lines, key)
      case Some(v) => Some(v)
      case None => Lookup(env, key)
    decreases |lines|
  {
    if lines != [] {
      LastAssignmentWins(env, lines[..|lines| - 1], key);
    }
  }

  /** `os.environ`, which the loop writes into. */
  class Environ {
    var vars: map<string, string>

    constructor (initial: map<string, string>)
      ensures vars == initial
    {
      vars := initial;
    }

    /**
     * The loop over the lines of `.env`. `ok` is false when an assignment
     * raised, which aborts the import of the backend.
     */
    method LoadDotEnv(lines: seq<string>) returns (ok: bool)
      modifies this
      ensures ok <==> Loaded(old(vars), lines).Some?
      ensures ok ==> vars == Loaded(old(vars), lines).value
    {
      var i := 0;
      while i < |lines|
        invariant 0 <= i <= |lines|
        invariant Loaded(old(vars), lines[..i]) == Some(vars)
      {
        assert lines[..i + 1][..i] == lines[..i];
        var line := lines[i];
        if '=' in line {
          var eq := IndexOf(line, '=').value;
          var k := PyStrip(line[..eq]);
          var v := EnvValue(line[eq + 1..]);
          if !Settable(k, v) {
            LoadedStaysFailed(old(vars), lines, i + 1);
            return false;
          }
          vars := vars[k := v];
        }
        i := i + 1;
      }
      assert lines[..i] == lines;
      return true;
    }
  }

  /** Once a prefix of the lines fails, the whole load fails. */
  lemma {:induction false} LoadedStaysFailed(env: map<string, string>, lines: seq<string>, n: nat)
    requires n <= |lines| && Loaded(env, lines[..n]).None?
    ensures Loaded(env, lines).None?
    decreases |lines| - n
  {
    if n < |lines| {
      assert lines[..n + 1][..n] == lines[..n];
      LoadedStaysFailed(env, lines, n + 1);
    } else {
      assert lines[..n] == lines;
    }
  }
}
