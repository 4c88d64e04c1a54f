/** Redacting the environment smoke report before it is written. */
module Redaction {
  import opened Json
  import opened Keyed
  import opened Text

  const Redacted := JStr("[redacted]")

  const SecretTokens := ["authorization", "password", "secret", "token", "api_key"]

  /** `part in s`. */
  predicate Contains(s: string, part: string) { part <= s || (s != "" && Contains(s[1..], part)) }

  predicate EndsWith(s: string, part: string) { |part| <= |s| && s[|s| - |part|..] == part }

  predicate HasToken(lowered: string) { exists i :: 0 <= i < |SecretTokens| && Contains(lowered, SecretTokens[i]) }

  /** Keys that may hold anything, whatever token they contain. */
  predicate ExemptKey(lowered: string) {
    || lowered == "missing_env" || lowered == "setup_required" || lowered == "env_vars"
    || EndsWith(lowered, "_configured") || EndsWith(lowered, "_env") || EndsWith(lowered, "_env_vars")
  }

  predicate IsSecretKey(lowered: string, value: Json) {
    if lowered == "missing_env" || lowered == "setup_required" || lowered == "env_vars" then false
    else if EndsWith(lowered, "_configured") || value.JBool? then false
    else if EndsWith(lowered, "_env") || EndsWith(lowered, "_env_vars") then false
    else HasToken(lowered)
  }

  lemma {:induction false} ContainsExactly(s: string, part: string)
    ensures Contains(s, part) <==> exists a, b :: s == a + part + b
  {
    if Contains(s, part) {
      if part <= s {
        assert s == "" + part + s[|part|..];
      } else {
        ContainsExactly(s[1..], part);
        var a, b :| s[1..] == a + part + b;
        assert s == ([s[0]] + a) + part + b;
      }
    }
    if a, b :| s == a + part + b {
      ContainsPart(a, part, b);
    }
  }

  lemma {:induction false} ContainsPart(a: string, part: string, b: string)
    ensures Contains(a + part + b, part)
  {
    var s := a + part + b;
    if a == "" {
      assert part <= s;
    } else {
      assert s[1..] == a[1..] + part + b;
      ContainsPart(a[1..], part, b);
    }
  }

  lemma EndsWithExactly(s: string, part: string)
    ensures EndsWith(s, part) <==> exists p :: s == p + part
  {
    if EndsWith(s, part) {
      assert s == s[..|s| - |part|] + part;
    }
    if p :| s == p + part {
      assert s[|s| - |part|..] == part;
    }
  }

  /** The words that make a key secret, and the keys they do not make secret. */
  ghost predicate NamesSecret(lowered: string) {
    exists token, a, b ::
      token in {"authorization", "password", "secret", "token", "api_key"} && lowered == a + token + b
  }

  ghost predicate MayHoldAnything(lowered: string) {
    || lowered in {"missing_env", "setup_required", "env_vars"}
    || exists p, suffix :: suffix in {"_configured", "_env", "_env_vars"} && lowered == p + suffix
  }

  lemma TokenExactly(lowered: string)
    ensures HasToken(lowered) <==> NamesSecret(lowered)
  {
    if HasToken(lowered) {
      var i :| 0 <= i < |SecretTokens| && Contains(lowered, SecretTokens[i]);
      ContainsExactly(lowered, SecretTokens[i]);
      var a, b :| lowered == a + SecretTokens[i] + b;
      assert SecretTokens[i] in {"authorization", "password", "secret", "token", "api_key"};
    }
    if token, a, b :| token in {"authorization", "password", "secret", "token", "api_key"} && lowered == a + token + b {
      ContainsPart(a, token, b);
      assert token in SecretTokens;
    }
  }

  lemma ExemptExactly(lowered: string)
    ensures ExemptKey(lowered) <==> MayHoldAnything(lowered)
  {
    EndsWithExactly(lowered, "_configured");
    EndsWithExactly(lowered, "_env");
    EndsWithExactly(lowered, "_env_vars");
    hide EndsWith;
    assert "_env" in {"_configured", "_env", "_env_vars"} && "_env_vars" in {"_configured", "_env", "_env_vars"};
  }

  /** A key is secret exactly when one of the five words occurs anywhere in it, it is not one of the keys that may hold
      anything, and its value is not a boolean. */
  lemma SecretExactly(lowered: string, value: Json)
    ensures IsSecretKey(lowered, value) <==> NamesSecret(lowered) && !MayHoldAnything(lowered) && !value.JBool?
  {
    TokenExactly(lowered);
    ExemptExactly(lowered);
    hide HasToken, EndsWith, NamesSecret, MayHoldAnything;
  }

  /** A value with every secret under it replaced. */
  function Redact(value: Json): Json {
    match value
    case JObj(fields) =>
      JObj(map k | k in fields :: if IsSecretKey(Lower(k), fields[k]) then Redacted else Redact(fields[k]))
    case JArr(items) => JArr(seq(|items|, i requires 0 <= i < |items| => Redact(items[i])))
    case _ => value
  }

  /** The recursion as it runs: a fresh dictionary or list is filled entry by entry. */
  method RedactValue(value: Json) returns (redacted: Json)
    ensures redacted == Redact(value)
    decreases value
  {
    match value {
      case JObj(fields) =>
        var done: Object := map[];
        var keys := fields.Keys;
        while keys != {}
          invariant keys <= fields.Keys && done.Keys == fields.Keys - keys
          invariant forall k :: k in done ==> done[k] == Redact(value).fields[k]
        {
          var key :| key in keys;
          var lowered := Lower(key);
          if IsSecretKey(lowered, fields[key]) {
            done := done[key := Redacted];
          } else {
            var item := RedactValue(fields[key]);
            done := done[key := item];
          }
          keys := keys - {key};
        }
        redacted := JObj(done);
      case JArr(items) =>
        var done: seq<Json> := [];
        for i := 0 to |items|
          invariant |done| == i && forall j :: 0 <= j < i ==> done[j] == Redact(items[j])
        {
          var item := RedactValue(items[i]);
          done := done + [item];
        }
        redacted := JArr(done);
      case _ =>
        redacted := value;
    }
  }

  /** Redacting a redacted value changes nothing. */
  lemma {:induction false} RedactTwice(value: Json)
    ensures Redact(Redact(value)) == Redact(value)
  {
    match value {
      case JObj(fields) =>
        forall k | k in fields ensures Redact(Redact(value)).fields[k] == Redact(value).fields[k] {
          if !IsSecretKey(Lower(k), fields[k]) {
            RedactTwice(fields[k]);
            SecretnessKept(Lower(k), fields[k]);
          }
        }
      case JArr(items) =>
        forall i | 0 <= i < |items| ensures Redact(Redact(items[i])) == Redact(items[i]) {
          RedactTwice(items[i]);
        }
      case _ =>
    }
  }

  /** Redacting a value does not make its key secret. */
  lemma SecretnessKept(lowered: string, value: Json)
    requires !IsSecretKey(lowered, value)
    ensures !IsSecretKey(lowered, Redact(value))
  {
  }

  // ---- what is where ----

  datatype Step = Key(key: string) | Index(index: nat)

  /** What a path leads to. */
  function At(value: Json, path: seq<Step>): Option<Json> {
    if path == [] then Some(value) else
      match (path[0], value)
      case (Key(k), JObj(fields)) => if k in fields then At(fields[k], path[1..]) else None
      case (Index(i), JArr(items)) => if i < |items| then At(items[i], path[1..]) else None
      case _ => None
  }

  /** Does the path go through the value of a secret key? */
  predicate Secret(value: Json, path: seq<Step>) {
    path != [] &&
      match (path[0], value)
      case (Key(k), JObj(fields)) => k in fields && (IsSecretKey(Lower(k), fields[k]) || Secret(fields[k], path[1..]))
      case (Index(i), JArr(items)) => i < |items| && Secret(items[i], path[1..])
      case _ => false
  }

  /** On a path without a secret key, redaction leads to the redacted value, and so to the same leaf, and to nothing
      when there was nothing. */
  lemma {:induction false} RedactKeepsClear(value: Json, path: seq<Step>)
    requires !Secret(value, path)
    ensures At(Redact(value), path) == match At(value, path) case Some(v) => Some(Redact(v)) case None => None
  {
    if path != [] {
      match (path[0], value) {
        case (Key(k), JObj(fields)) =>
          if k in fields {
            RedactKeepsClear(fields[k], path[1..]);
          }
        case (Index(i), JArr(items)) =>
          if i < |items| {
            RedactKeepsClear(items[i], path[1..]);
          }
        case _ =>
      }
    }
  }

  /** What a path through a secret key leads to afterwards is the mark, or nothing. */
  lemma {:induction false} RedactHidesSecret(value: Json, path: seq<Step>)
    requires Secret(value, path)
    ensures At(Redact(value), path).None? || At(Redact(value), path) == Some(JStr("[redacted]"))
  {
    match (path[0], value) {
      case (Key(k), JObj(fields)) =>
        if !IsSecretKey(Lower(k), fields[k]) {
          RedactHidesSecret(fields[k], path[1..]);
        } else if path[1..] != [] {
          assert At(Redacted, path[1..]).None?;
        }
      case (Index(i), JArr(items)) =>
        RedactHidesSecret(items[i], path[1..]);
      case _ =>
    }
  }

  /** Wherever it is, a key with one of the five words anywhere in it, whatever its case, holds a boolean or the mark
      afterwards, unless it is one of the keys that may hold anything. */
  lemma {:induction false} SecretKeysHoldNoSecret(value: Json, path: seq<Step>, key: string, a: string, token: string, b: string)
    requires token in {"authorization", "password", "secret", "token", "api_key"} && Lower(key) == a + token + b
    requires Lower(key) !in {"missing_env", "setup_required", "env_vars"}
    requires forall p :: Lower(key) != p + "_configured" && Lower(key) != p + "_env" && Lower(key) != p + "_env_vars"
    ensures var found := At(Redact(value), path + [Key(key)]);
            found.None? || found.value.JBool? || found.value == JStr("[redacted]")
  {
    TokenExactly(Lower(key));
    ExemptExactly(Lower(key));
    hide HasToken, ExemptKey, Lower;
    var full := path + [Key(key)];
    if Secret(value, full) {
      RedactHidesSecret(value, full);
    } else {
      RedactKeepsClear(value, full);
      LastKeyClear(value, path, key);
    }
  }

  lemma {:induction false} LastKeyClear(value: Json, path: seq<Step>, key: string)
    requires HasToken(Lower(key)) && !ExemptKey(Lower(key)) && !Secret(value, path + [Key(key)])
    ensures var found := At(value, path + [Key(key)]); found.None? || found.value.JBool?
  {
    var full := path + [Key(key)];
    if path != [] {
      assert full[0] == path[0] && full[1..] == path[1..] + [Key(key)];
      match (path[0], value) {
        case (Key(k), JObj(fields)) =>
          if k in fields {
            LastKeyClear(fields[k], path[1..], key);
          }
        case (Index(i), JArr(items)) =>
          if i < |items| {
            LastKeyClear(items[i], path[1..], key);
          }
        case _ =>
      }
    } else {
      assert full[0] == Key(key) && full[1..] == [];
    }
  }

  // ---- what the report can tell ----

  /** Do two values differ in nothing but what secret keys hold? */
  predicate SameOutside(a: Json, b: Json) {
    match (a, b)
    case (JObj(f), JObj(g)) =>
      && f.Keys == g.Keys
      && forall k :: k in f && k in g ==>
        && (IsSecretKey(Lower(k), f[k]) <==> IsSecretKey(Lower(k), g[k]))
        && (IsSecretKey(Lower(k), f[k]) || SameOutside(f[k], g[k]))
    case (JArr(s), JArr(t)) =>
      |s| == |t| && forall i :: 0 <= i < |s| && i < |t| ==> SameOutside(s[i], t[i])
    case _ => a == b
  }

  /** The report shows every difference outside the secrets and none inside: two values give the same report exactly
      when they agree outside their secret keys. */
  lemma {:induction false} RedactTellsNothingElse(a: Json, b: Json)
    ensures Redact(a) == Redact(b) <==> SameOutside(a, b)
  {
    match (a, b) {
      case (JObj(f), JObj(g)) =>
        forall k | k in f && k in g ensures Redact(f[k]) == Redact(g[k]) <==> SameOutside(f[k], g[k]) {
          RedactTellsNothingElse(f[k], g[k]);
        }
        hide Redact, SameOutside;
        ObjectsTell(f, g);
      case (JArr(s), JArr(t)) =>
        forall i | 0 <= i < |s| && i < |t| ensures Redact(s[i]) == Redact(t[i]) <==> SameOutside(s[i], t[i]) {
          RedactTellsNothingElse(s[i], t[i]);
        }
        hide Redact, SameOutside;
        ListsTell(s, t);
      case _ =>
    }
  }

  lemma ObjectsTell(f: Object, g: Object)
    requires forall k :: k in f && k in g ==> (Redact(f[k]) == Redact(g[k]) <==> SameOutside(f[k], g[k]))
    ensures Redact(JObj(f)) == Redact(JObj(g)) <==> SameOutside(JObj(f), JObj(g))
  {
    RedactObjects(f, g);
    hide Redact, IsSecretKey, Lower;
  }

  lemma ListsTell(s: seq<Json>, t: seq<Json>)
    requires forall i :: 0 <= i < |s| && i < |t| ==> (Redact(s[i]) == Redact(t[i]) <==> SameOutside(s[i], t[i]))
    ensures Redact(JArr(s)) == Redact(JArr(t)) <==> SameOutside(JArr(s), JArr(t))
  {
    RedactLists(s, t);
    hide Redact;
  }

  lemma RedactObjects(f: Object, g: Object)
    ensures Redact(JObj(f)) == Redact(JObj(g)) <==>
            && f.Keys == g.Keys
            && forall k :: k in f && k in g ==>
              && (IsSecretKey(Lower(k), f[k]) <==> IsSecretKey(Lower(k), g[k]))
              && (IsSecretKey(Lower(k), f[k]) || Redact(f[k]) == Redact(g[k]))
  {
    hide IsSecretKey, Lower;
    var x, y := Redact(JObj(f)).fields, Redact(JObj(g)).fields;
    assert x.Keys == f.Keys && y.Keys == g.Keys;
    forall k | k in f && k in g
      ensures x[k] == y[k] <==> && (IsSecretKey(Lower(k), f[k]) <==> IsSecretKey(Lower(k), g[k]))
                                && (IsSecretKey(Lower(k), f[k]) || Redact(f[k]) == Redact(g[k]))
    {
      OnlyBooleansDiffer(Lower(k), f[k], g[k]);
      OnlyBooleansDiffer(Lower(k), g[k], f[k]);
    }
    if f.Keys == g.Keys && forall k :: k in f && k in g ==> x[k] == y[k] {
      assert x == y;
    }
  }

  /** A key that is secret with one value and not with another is not because that value is a boolean. */
  lemma OnlyBooleansDiffer(lowered: string, v: Json, w: Json)
    ensures IsSecretKey(lowered, v) && !IsSecretKey(lowered, w) ==> w.JBool? && Redact(w) != Redacted
  {
  }

  lemma RedactLists(s: seq<Json>, t: seq<Json>)
    ensures Redact(JArr(s)) == Redact(JArr(t)) <==>
            |s| == |t| && forall i :: 0 <= i < |s| && i < |t| ==> Redact(s[i]) == Redact(t[i])
  {
    var x, y := Redact(JArr(s)).items, Redact(JArr(t)).items;
    assert |x| == |s| && |y| == |t|;
    assert forall i :: 0 <= i < |s| ==> x[i] == Redact(s[i]);
    assert forall i :: 0 <= i < |t| ==> y[i] == Redact(t[i]);
    if |s| == |t| && forall i :: 0 <= i < |s| && i < |t| ==> Redact(s[i]) == Redact(t[i]) {
      assert x == y;
    }
  }
}
