/** The environment snapshot of the host-info page: the process environment,
    given as `KEY=VALUE` entries, turned into a map from key to value. */
module Env {
  import opened Wrappers

  /** Position of the first '=' in an entry, or None when it has none. */
  function FirstEq(e: string): (r: Option<nat>)
    ensures r.None? <==> '=' !in e
    ensures r.Some? ==> r.value < |e| && e[r.value] == '=' && '=' !in e[..r.value]
  {
    if |e| == 0 then None
    else if e[0] == '=' then Some(0)
    else match FirstEq(e[1..])
      case None => None
      case Some(i) =>
        assert e[..i + 1] == [e[0]] + e[1..][..i];
        Some(i + 1)
  }

  /** `e` is `k`, an '=', then `v`, and `k` holds no '='. */
  ghost predicate SplitsAs(e: string, k: string, v: string)
  {
    e == k + "=" + v && '=' !in k
  }

  /** An entry split at its first '=' into (key, value); None when the
      entry has no '='. */
  function Split(e: string): (r: Option<(string, string)>)
    ensures r.None? <==> '=' !in e
    ensures r.Some? ==> SplitsAs(e, r.value.0, r.value.1)
  {
    match FirstEq(e)
    case None => None
    case Some(i) => Some((e[..i], e[i + 1..]))
  }

  /** The split is exactly the decomposition at the first '=': the key is
      everything before it and the value everything after it, so a value
      may itself contain '='. */
  lemma SplitIsFirstEq(e: string, k: string, v: string)
    ensures Split(e) == Some((k, v)) <==> SplitsAs(e, k, v)
  {
    if SplitsAs(e, k, v) {
      assert e[..|k|] == k && e[|k|] == '=' && e[|k| + 1..] == v;
    }
  }

  /** The entry defines `k` (it contains '=' and its key is `k`). */
  predicate HasKey(e: string, k: string)
  {
    Split(e).Some? && Split(e).value.0 == k
  }

  /** The key of an entry that contains '='. */
  function KeyOf(e: string): string
    requires '=' in e
  {
    Split(e).value.0
  }

  /** The map the entries produce when processed from first to last:
      an entry without '=' is skipped, and a later entry with a key already
      present overwrites the earlier value. */
  function EnvOf(entries: seq<string>): map<string, string>
  {
    if entries == [] then map[]
    else
      var m := EnvOf(entries[..|entries| - 1]);
      match Split(entries[|entries| - 1])
      case None => m
      case Some(kv) => m[kv.0 := kv.1]
  }

  /** The keys of the map are exactly the keys of the entries that contain '='. */
  lemma {:induction false} EnvKeys(entries: seq<string>)
    ensures EnvOf(entries).Keys == set e | e in entries && '=' in e :: KeyOf(e)
  {
    if entries != [] {
      var init, last := entries[..|entries| - 1], entries[|entries| - 1];
      assert entries == init + [last];
      EnvKeys(init);
      var keysInit := set e | e in init && '=' in e :: KeyOf(e);
      var keysAll := set e | e in entries && '=' in e :: KeyOf(e);
      if '=' in last {
        assert keysAll == keysInit + {KeyOf(last)};
      } else {
        assert keysAll == keysInit;
      }
    }
  }

  /** The value of a key is taken from the last entry that defines it. */
  lemma {:induction false} LastWins(entries: seq<string>, i: nat, k: string, v: string)
    requires i < |entries| && Split(entries[i]) == Some((k, v))
    requires forall j :: i < j < |entries| ==> !HasKey(entries[j], k)
    ensures k in EnvOf(entries) && EnvOf(entries)[k] == v
  {
    var init := entries[..|entries| - 1];
    if i < |entries| - 1 {
      forall j | i < j < |init| ensures !HasKey(init[j], k) {
        assert init[j] == entries[j];
      }
      LastWins(init, i, k, v);
    }
  }

  /** An entry without '=' contributes nothing, wherever it stands. */
  lemma {:induction false} NoEqIgnored(before: seq<string>, e: string, after: seq<string>)
    requires '=' !in e
    ensures EnvOf(before + [e] + after) == EnvOf(before + after)
  {
    if after == [] {
      assert before + [e] + after == before + [e];
      assert (before + [e])[..|before|] == before;
      assert before + after == before;
    } else {
      var init, last := after[..|after| - 1], after[|after| - 1];
      NoEqIgnored(before, e, init);
      assert (before + [e] + after)[..|before + [e] + after| - 1] == before + [e] + init;
      assert (before + after)[..|before + after| - 1] == before + init;
    }
  }

  /** getEnv: walks the entries in order and, inside each entry, its
      characters up to the first '='. */
  method GetEnv(environ: seq<string>) returns (env: map<string, string>)
    ensures env == EnvOf(environ)
  {
    env := map[];
    var n := 0;
    while n < |environ|
      invariant n <= |environ|
      invariant env == EnvOf(environ[..n])
    {
      var kv := environ[n];
      assert environ[..n + 1][..n] == environ[..n];
      var i := 0;
      while i < |kv|
        invariant i <= |kv|
        invariant '=' !in kv[..i]
        invariant env == EnvOf(environ[..n])
      {
        if kv[i] == '=' {
          SplitIsFirstEq(kv, kv[..i], kv[i + 1..]);
          assert kv == kv[..i] + "=" + kv[i + 1..];
          env := env[kv[..i] := kv[i + 1..]];
          assert env == EnvOf(environ[..n + 1]);
          break;
        }
        assert kv[..i + 1] == kv[..i] + [kv[i]];
        i := i + 1;
      }
      assert kv[..i] == kv || env == EnvOf(environ[..n + 1]);
      n := n + 1;
    }
    assert environ[..n] == environ;
  }
}
