/**
  The provider part of the `headers` command: for every configured
  provider, its extra HTTP headers with the values of secret headers
  replaced. The provider configuration is a parameter, a map from
  provider ID to that provider's extra headers.
*/
module Headers {

  const Redaction: string := "[REDACTED]"

  /**
    `unicode.ToLower` on the code points whose lower case is an ASCII
    letter: A to Z, KELVIN SIGN (to `k`) and LATIN CAPITAL LETTER I WITH
    DOT ABOVE (to `i`). Every other code point is left as it is; the lower
    case Go gives it is not ASCII either, so comparisons with ASCII names
    come out the same.
  */
  function Lower(c: char): char {
    if 'A' <= c <= 'Z' then (c as int + 32) as char
    else if c == '\U{212A}' then 'k'
    else if c == '\U{0130}' then 'i'
    else c
  }

  /** `strings.ToLower`, one code point at a time. */
  function LowerString(s: string): (r: string)
    ensures |r| == |s|
    ensures forall i :: 0 <= i < |s| ==> r[i] == Lower(s[i])
  {
    seq(|s|, i requires 0 <= i < |s| => Lower(s[i]))
  }

  /** The header names whose values are never shown, in lower case. */
  function SecretNames(): set<string> {
    {"authorization", "x-api-key", "api-key"}
  }

  /** Whether a header's value is secret: its name, lower-cased, is one of the secret names. */
  predicate IsSecret(name: string)
    ensures IsSecret(name) ==> |name| == 13 || |name| == 9 || |name| == 7
  {
    LowerString(name) in SecretNames()
  }

  /** The extra headers of one provider as the command shows them. */
  function Redacted(extra: map<string, string>): (r: map<string, string>)
    ensures r.Keys == extra.Keys
    ensures forall k :: k in r ==> r[k] == Redaction || r[k] == extra[k]
  {
    map k | k in extra :: if IsSecret(k) then Redaction else extra[k]
  }

  /** The shown headers keep every name exactly as spelled; secret values are replaced, the rest kept. */
  lemma RedactedEntries(extra: map<string, string>)
    ensures Redacted(extra).Keys == extra.Keys
    ensures forall k :: k in extra && IsSecret(k) ==> Redacted(extra)[k] == Redaction
    ensures forall k :: k in extra && !IsSecret(k) ==> Redacted(extra)[k] == extra[k]
  {
  }

  /** Redacting what is already redacted changes nothing. */
  lemma RedactedIdempotent(extra: map<string, string>)
    ensures Redacted(Redacted(extra)) == Redacted(extra)
  {
    var r := Redacted(extra);
    assert Redacted(r).Keys == r.Keys;
    forall k | k in r
      ensures Redacted(r)[k] == r[k]
    {
    }
  }

  /** Whether `c` is `d` or one of the forms whose lower case is `d`. */
  predicate CaseVariant(c: char, d: char) {
    || c == d
    || ('a' <= d <= 'z' && c as int == d as int - 32)
    || (d == 'k' && c == '\U{212A}')
    || (d == 'i' && c == '\U{0130}')
  }

  /** For a lower-case ASCII letter or a dash, the code points lower-casing to it are its case variants. */
  lemma LowerIsVariant(c: char, d: char)
    requires 'a' <= d <= 'z' || d == '-'
    ensures Lower(c) == d <==> CaseVariant(c, d)
  {
  }

  /** The secret names are spelled with lower-case ASCII letters and dashes only. */
  lemma SecretNameLetters(t: string)
    requires t in SecretNames()
    ensures forall i :: 0 <= i < |t| ==> 'a' <= t[i] <= 'z' || t[i] == '-'
  {
  }

  /** A name matches a secret name exactly when it is, letter by letter, a case variant of it. */
  lemma LowersTo(name: string, t: string)
    requires t in SecretNames()
    ensures LowerString(name) == t <==> |name| == |t| && forall i :: 0 <= i < |t| ==> CaseVariant(name[i], t[i])
  {
    SecretNameLetters(t);
    if |name| == |t| {
      forall i | 0 <= i < |t|
        ensures LowerString(name)[i] == t[i] <==> CaseVariant(name[i], t[i])
      {
        LowerIsVariant(name[i], t[i]);
      }
      if forall i :: 0 <= i < |t| ==> CaseVariant(name[i], t[i]) {
        assert LowerString(name) == t;
      }
    }
  }

  /**
    A header is secret exactly when its name spells one of the secret
    names letter by letter, each letter in either case (or as the Kelvin
    sign for `k`, the dotted capital I for `i`).
  */
  lemma SecretIffSpelledAs(name: string)
    ensures IsSecret(name) <==>
      exists t :: t in SecretNames() && |name| == |t| && forall i :: 0 <= i < |t| ==> CaseVariant(name[i], t[i])
  {
    if IsSecret(name) {
      LowersTo(name, LowerString(name));
    }
    if exists t :: t in SecretNames() && |name| == |t| && forall i :: 0 <= i < |t| ==> CaseVariant(name[i], t[i]) {
      var t :| t in SecretNames() && |name| == |t| && forall i :: 0 <= i < |t| ==> CaseVariant(name[i], t[i]);
      LowersTo(name, t);
    }
  }

  /** The three comparisons the command makes decide secrecy. */
  lemma SecretByComparison(k: string)
    ensures IsSecret(k) <==> (var lk := LowerString(k); lk == "authorization" || lk == "x-api-key" || lk == "api-key")
  {
  }

  lemma SecretExamples()
    ensures IsSecret("Authorization") && IsSecret("AUTHORIZATION") && IsSecret("X-Api-Key")
    ensures IsSecret("API-KEY") && IsSecret("x-api-\U{212A}ey") && IsSecret("AUTHOR\U{0130}ZATION")
    ensures !IsSecret("X-Request-Id") && !IsSecret("Authorization ")
  {
    assert LowerString("Authorization") == "authorization";
    assert LowerString("AUTHORIZATION") == "authorization";
    assert LowerString("X-Api-Key") == "x-api-key";
    assert LowerString("API-KEY") == "api-key";
    assert LowerString("x-api-\U{212A}ey") == "x-api-key";
    assert LowerString("AUTHOR\U{0130}ZATION") == "authorization";
    assert |LowerString("X-Request-Id")| == 12;
    assert |LowerString("Authorization ")| == 14;
  }

  /** The provider section of the command's output. */
  function ProviderHeaders(providers: map<string, map<string, string>>): map<string, map<string, string>> {
    map id | id in providers :: Redacted(providers[id])
  }

  /** Every provider appears, with its headers redacted, even one with no extra headers. */
  lemma EveryProviderListed(providers: map<string, map<string, string>>)
    ensures ProviderHeaders(providers).Keys == providers.Keys
    ensures forall id :: id in providers && providers[id] == map[] ==> ProviderHeaders(providers)[id] == map[]
  {
    forall id | id in providers && providers[id] == map[]
      ensures ProviderHeaders(providers)[id] == map[]
    {
      assert Redacted(providers[id]).Keys == {};
    }
  }

  /** The inner loop: one provider's headers, copied one name at a time. */
  method RedactHeaders(extra: map<string, string>) returns (headers: map<string, string>)
    ensures headers == Redacted(extra)
  {
    headers := map[];
    var todo := extra.Keys;
    while todo != {}
      invariant todo <= extra.Keys
      invariant headers.Keys == extra.Keys - todo
      invariant forall k :: k in headers ==> headers[k] == Redacted(extra)[k]
      decreases |todo|
    {
      var k :| k in todo;
      var lk := LowerString(k);
      SecretByComparison(k);
      if lk == "authorization" || lk == "x-api-key" || lk == "api-key" {
        headers := headers[k := Redaction];
      } else {
        headers := headers[k := extra[k]];
      }
      todo := todo - {k};
    }
  }

  /** The outer loop: one entry per provider. */
  method ListProviderHeaders(providers: map<string, map<string, string>>) returns (out: map<string, map<string, string>>)
    ensures out == ProviderHeaders(providers)
  {
    out := map[];
    var todo := providers.Keys;
    while todo != {}
      invariant todo <= providers.Keys
      invariant out.Keys == providers.Keys - todo
      invariant forall id :: id in out ==> out[id] == Redacted(providers[id])
      decreases |todo|
    {
      var id :| id in todo;
      var headers := RedactHeaders(providers[id]);
      out := out[id := headers];
      todo := todo - {id};
    }
  }
}
