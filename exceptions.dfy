/** `Api_Exception` and its subclass `Bad_Request`: the error the binding
    throws, with any `api_key=...` or `access_token=...` credential in a
    transport message redacted before it is surfaced. */
module Exceptions {
  import opened Wrappers
  import opened Php
  import opened Http

  /** Which class was instantiated: `Api_Exception` or its empty subclass
      `Bad_Request`. */
  datatype Kind = ApiError | BadRequest

  /** An exception object: message, code, the previous exception and the
      response it carries (`$response`, null unless set by `create`). */
  datatype ApiException = ApiException(
    kind: Kind,
    message: string,
    code: int,
    previous: Option<TransportError>,
    response: Option<HttpResponse>)

  /** `new Bad_Request($message, $code)`; PHP's default code is 0. */
  function NewBadRequest(message: string, code: int := 0): (e: ApiException)
    ensures e.kind == BadRequest && e.message == message && e.code == code
    ensures e.previous == None && e.response == None
  {
    ApiException(BadRequest, message, code, None, None)
  }

  /** `static::create($guzzle_exception)`, with `static` the class it is
      called on: the message is redacted; code, previous exception and
      response come from the transport exception. */
  function Create(kind: Kind, e: TransportError): (x: ApiException)
    ensures x.kind == kind && x.code == e.code && x.previous == Some(e) && x.response == e.response
    ensures x.message == Sanitize(e.message)
    ensures NoCredential(x.message)
    ensures NoCredential(e.message) ==> x.message == e.message
  {
    SanitizeRemovesEveryCredential(e.message);
    SanitizeFixesExactlyCleanMessages(e.message);
    ApiException(kind, Sanitize(e.message), e.code, Some(e), e.response)
  }

  /** `get_response()`. */
  function GetResponse(x: ApiException): Option<HttpResponse>
  {
    x.response
  }

  /** `get_response()` returns the transport's response for an exception
      made by `create`, and null for one constructed directly. */
  lemma ResponseOfCreate(kind: Kind, e: TransportError, message: string, code: int)
    ensures GetResponse(Create(kind, e)) == e.response
    ensures GetResponse(NewBadRequest(message, code)) == None
  {
  }

  // ---------------------------------------------------------------------
  // The redaction `preg_replace('/(api_key|access_token)=[a-z0-9-]+/i',
  // '$1=***', $message)`, as a left-to-right scanner.

  const ApiKeyName := "api_key"
  const AccessTokenName := "access_token"

  /** `[a-z0-9-]` under `/i`. */
  predicate TokenChar(c: char)
  {
    'a' <= c <= 'z' || 'A' <= c <= 'Z' || '0' <= c <= '9' || c == '-'
  }

  /** `s` begins with `name` up to ASCII case (`name` is lower-case). */
  predicate StartsWithName(s: string, name: string)
  {
    |name| <= |s| && forall i :: 0 <= i < |name| ==> LowerChar(s[i]) == name[i]
  }

  /** The pattern matches at the start of `s` taking the alternative `name`:
      the name, `=`, and at least one token character. */
  predicate MatchesWith(s: string, name: string)
  {
    |name| + 1 < |s| && StartsWithName(s, name) && s[|name|] == '=' && TokenChar(s[|name| + 1])
  }

  predicate MatchesAt(s: string)
  {
    MatchesWith(s, ApiKeyName) || MatchesWith(s, AccessTokenName)
  }

  /** The number of characters the group `$1` captures in a match at the
      start of `s` (alternatives are tried in order). */
  function MatchedNameLength(s: string): nat
    requires MatchesAt(s)
  {
    if MatchesWith(s, ApiKeyName) then |ApiKeyName| else |AccessTokenName|
  }

  /** The length of the longest prefix of `s` made of token characters
      (the greedy `+`). */
  function TokenRun(s: string): (n: nat)
    ensures n <= |s|
    ensures forall i :: 0 <= i < n ==> TokenChar(s[i])
    ensures n < |s| ==> !TokenChar(s[n])
  {
    if s == [] || !TokenChar(s[0]) then 0 else 1 + TokenRun(s[1..])
  }

  /** `sanitize_response_message`: at each position, a match is replaced by
      its name (in its original case) followed by `=***` and scanning
      resumes after the token; otherwise the character is kept. */
  function Sanitize(s: string): string
    decreases |s|
  {
    if s == [] then []
    else if MatchesAt(s) then
      var n := MatchedNameLength(s);
      var t := TokenRun(s[n + 1..]);
      s[..n] + "=***" + Sanitize(s[n + 1 + t..])
    else [s[0]] + Sanitize(s[1..])
  }

  /** No position of `s` starts a credential `name=token`. */
  predicate NoCredential(s: string)
  {
    forall i :: 0 <= i < |s| ==> !MatchesAt(s[i..])
  }

  /** A message is returned unchanged exactly when it holds no credential. */
  lemma {:induction false} SanitizeFixesExactlyCleanMessages(s: string)
    ensures Sanitize(s) == s <==> NoCredential(s)
    decreases |s|
  {
    if s == [] {
    } else if MatchesAt(s) {
      var n := MatchedNameLength(s);
      var t := TokenRun(s[n + 1..]);
      var out := s[..n] + "=***" + Sanitize(s[n + 1 + t..]);
      assert out[n + 1] == '*' && TokenChar(s[n + 1]);
      assert Sanitize(s) != s;
      assert !NoCredential(s) by { assert s[0..] == s; }
    } else {
      SanitizeFixesExactlyCleanMessages(s[1..]);
      assert Sanitize(s) == [s[0]] + Sanitize(s[1..]);
      assert s == [s[0]] + s[1..];
      if NoCredential(s[1..]) {
        forall i | 0 <= i < |s| ensures !MatchesAt(s[i..]) {
          if i > 0 {
            assert s[i..] == s[1..][i - 1..];
          }
        }
      }
      if NoCredential(s) {
        forall i | 0 <= i < |s[1..]| ensures !MatchesAt(s[1..][i..]) {
          assert s[1..][i..] == s[i + 1..];
        }
      }
    }
  }

  /** A matched name never contains `=` or `*`, and only its first
      character lower-cases to `a`. */
  lemma NameShape(name: string, j: nat)
    requires name == ApiKeyName || name == AccessTokenName
    requires j < |name|
    ensures name[j] != '*' && name[j] != '='
    ensures j > 0 ==> name[j] != 'a'
    ensures j == 0 ==> name[j] == 'a'
  {
    if name == ApiKeyName {
      assert j < 7;
      assert name[j] in ['a', 'p', 'i', '_', 'k', 'e', 'y'];
    } else {
      assert j < 12;
      assert name[j] in ['a', 'c', 'c', 'e', 's', 's', '_', 't', 'o', 'k', 'e', 'n'];
    }
  }

  /** If strings agree before position `p`, where the first has `*` and the
      second a token character, any match at the start of the first is a
      match at the start of the second. */
  lemma MatchThroughStar(u1: string, u2: string, p: nat, name: string)
    requires name == ApiKeyName || name == AccessTokenName
    requires p < |u1| && p < |u2|
    requires u1[..p] == u2[..p]
    requires u1[p] == '*' && TokenChar(u2[p])
    ensures MatchesWith(u1, name) ==> MatchesWith(u2, name)
  {
    if MatchesWith(u1, name) {
      if p < |name| {
        NameShape(name, p);
        assert false;
      } else if p <= |name| + 1 {
        assert false;
      } else {
        forall i | 0 <= i < |name| + 2 ensures u1[i] == u2[i] {
          assert u1[i] == u1[..p][i];
        }
      }
    }
  }

  /** Redaction creates no match that was not already there: whatever
      precedes the scanned text, a match at the start of `p + Sanitize(s)`
      is a match at the start of `p + s`. */
  lemma {:induction false} NoMatchIntroduced(p: string, s: string)
    ensures MatchesAt(p + Sanitize(s)) ==> MatchesAt(p + s)
    decreases |s|
  {
    if s == [] {
      assert p + Sanitize(s) == p + s;
    } else if MatchesAt(s) {
      NoMatchIntroducedByRedaction(p, s);
    } else {
      assert Sanitize(s) == [s[0]] + Sanitize(s[1..]);
      NoMatchIntroduced(p + [s[0]], s[1..]);
      assert p + Sanitize(s) == (p + [s[0]]) + Sanitize(s[1..]);
      assert p + s == (p + [s[0]]) + s[1..];
    }
  }

  /** The case of `NoMatchIntroduced` where `s` starts with a match: the
      redacted text agrees with the original up to the `=`, after which it
      has `*` where the original has a token character. */
  lemma NoMatchIntroducedByRedaction(p: string, s: string)
    requires MatchesAt(s)
    ensures MatchesAt(p + Sanitize(s)) ==> MatchesAt(p + s)
  {
    var n := MatchedNameLength(s);
    var t := TokenRun(s[n + 1..]);
    var tail := Sanitize(s[n + 1 + t..]);
    assert Sanitize(s) == s[..n] + "=***" + tail;
    var u1 := p + Sanitize(s);
    var u2 := p + s;
    var q := |p| + n + 1;
    AgreeUpToStar(p, s, n, tail);
    MatchThroughStar(u1, u2, q, ApiKeyName);
    MatchThroughStar(u1, u2, q, AccessTokenName);
  }

  lemma AgreeUpToStar(p: string, s: string, n: nat, tail: string)
    requires n + 1 < |s| && s[n] == '=' && TokenChar(s[n + 1])
    ensures var u1 := p + (s[..n] + "=***" + tail);
            var q := |p| + n + 1;
            q < |u1| && q < |p + s| && u1[..q] == (p + s)[..q] && u1[q] == '*' && TokenChar((p + s)[q])
  {
    var u1 := p + (s[..n] + "=***" + tail);
    var u2 := p + s;
    var q := |p| + n + 1;
    assert u1[..q] == p + s[..n] + "=";
    assert s[..n + 1] == s[..n] + "=";
    assert u2[..q] == p + s[..n + 1];
    assert u2[q] == s[n + 1];
  }

  /** Text none of whose characters lower-cases to `a` cannot start a match
      and is copied as it is. */
  lemma {:induction false} CopiesTextWithoutA(q: string, rest: string)
    requires forall i :: 0 <= i < |q| ==> LowerChar(q[i]) != 'a'
    ensures Sanitize(q + rest) == q + Sanitize(rest)
    decreases |q|
  {
    if q != [] {
      var u := q + rest;
      assert u[0] == q[0];
      assert !MatchesAt(u) by {
        assert ApiKeyName[0] == 'a' && AccessTokenName[0] == 'a';
      }
      assert u[1..] == q[1..] + rest;
      CopiesTextWithoutA(q[1..], rest);
    } else {
      assert q + rest == rest;
    }
  }

  /** `kept` is a spelling of one of the two names. */
  predicate NameSpelling(kept: string)
  {
    (|kept| == |ApiKeyName| && StartsWithName(kept, ApiKeyName))
    || (|kept| == |AccessTokenName| && StartsWithName(kept, AccessTokenName))
  }

  /** A name spelling followed by `=` and `*` does not start a match. */
  lemma NoMatchAtStar(u: string, kept: string)
    requires NameSpelling(kept)
    requires |kept| + 1 < |u| && u[..|kept|] == kept && u[|kept|] == '=' && u[|kept| + 1] == '*'
    ensures !MatchesAt(u)
  {
    assert LowerChar(u[1]) == LowerChar(kept[1]) by { assert u[1] == u[..|kept|][1]; }
    if |kept| == |ApiKeyName| && StartsWithName(kept, ApiKeyName) {
      assert LowerChar(kept[1]) == 'p';
      assert !MatchesWith(u, AccessTokenName) by { assert AccessTokenName[1] == 'c'; }
    } else {
      assert LowerChar(kept[1]) == 'c';
      assert !MatchesWith(u, ApiKeyName) by { assert ApiKeyName[1] == 'p'; }
    }
  }

  /** The text a redaction writes, kept name followed by `=***`, is
      scanned past unchanged. */
  lemma RedactionIsStable(kept: string, rest: string)
    requires NameSpelling(kept)
    ensures Sanitize(kept + "=***" + rest) == kept + "=***" + Sanitize(rest)
  {
    var u := kept + "=***" + rest;
    assert u[..|kept|] == kept && u[|kept|] == '=' && u[|kept| + 1] == '*';
    assert u[1..] == (kept[1..] + "=***") + rest;
    StableAt(u, kept, rest);
  }

  lemma StableAt(u: string, kept: string, rest: string)
    requires NameSpelling(kept)
    requires |kept| + 1 < |u| && u[..|kept|] == kept && u[|kept|] == '=' && u[|kept| + 1] == '*'
    requires u[1..] == (kept[1..] + "=***") + rest
    ensures Sanitize(u) == kept + "=***" + Sanitize(rest)
  {
    NoMatchAtStar(u, kept);
    var q := kept[1..] + "=***";
    forall i | 0 <= i < |q| ensures LowerChar(q[i]) != 'a' {
      if i < |kept| - 1 {
        assert q[i] == kept[i + 1];
        if |kept| == |ApiKeyName| && StartsWithName(kept, ApiKeyName) {
          NameShape(ApiKeyName, i + 1);
        } else {
          NameShape(AccessTokenName, i + 1);
        }
      }
    }
    CopiesTextWithoutA(q, rest);
    assert u[0] == kept[0] by { assert u[0] == u[..|kept|][0]; }
    Recons(kept, "=***", Sanitize(rest));
  }

  lemma Recons(x: string, y: string, z: string)
    requires x != []
    ensures [x[0]] + ((x[1..] + y) + z) == (x + y) + z
  {
    assert x == [x[0]] + x[1..];
  }

  /** Sanitizing twice is sanitizing once. */
  lemma {:induction false} SanitizeIdempotent(s: string)
    ensures Sanitize(Sanitize(s)) == Sanitize(s)
    decreases |s|, 1
  {
    if s == [] {
    } else if MatchesAt(s) {
      IdempotentAtRedaction(s);
    } else {
      IdempotentAtKept(s);
    }
  }

  lemma {:induction false} IdempotentAtRedaction(s: string)
    requires MatchesAt(s)
    ensures Sanitize(Sanitize(s)) == Sanitize(s)
    decreases |s|, 0
  {
    var n := MatchedNameLength(s);
    var rest := s[n + 1 + TokenRun(s[n + 1..])..];
    assert Sanitize(s) == s[..n] + "=***" + Sanitize(rest);
    MatchedSpelling(s);
    RedactionIsStable(s[..n], Sanitize(rest));
    SanitizeIdempotent(rest);
  }

  lemma {:induction false} IdempotentAtKept(s: string)
    requires s != [] && !MatchesAt(s)
    ensures Sanitize(Sanitize(s)) == Sanitize(s)
    decreases |s|, 0
  {
    var u := Sanitize(s);
    assert u == [s[0]] + Sanitize(s[1..]);
    NoMatchIntroduced([s[0]], s[1..]);
    assert [s[0]] + s[1..] == s;
    KeptStep(u, s[0], Sanitize(s[1..]));
    SanitizeIdempotent(s[1..]);
  }

  lemma KeptStep(u: string, c: char, tail: string)
    requires u == [c] + tail && !MatchesAt(u)
    ensures Sanitize(u) == [c] + Sanitize(tail)
  {
    assert u[1..] == tail;
  }

  /** No credential survives redaction. */
  lemma SanitizeRemovesEveryCredential(s: string)
    ensures NoCredential(Sanitize(s))
  {
    SanitizeIdempotent(s);
    SanitizeFixesExactlyCleanMessages(Sanitize(s));
  }

  /** What a match captures as `$1` is a spelling of its name. */
  lemma MatchedSpelling(s: string)
    requires MatchesAt(s)
    ensures NameSpelling(s[..MatchedNameLength(s)])
  {
  }

  /** One redaction: a name in any case, `=`, and a maximal token run become
      the name as written followed by `=***`; the first character after the
      run, and what follows, are scanned on. */
  lemma RedactsOneCredential(kept: string, token: string, rest: string)
    requires NameSpelling(kept)
    requires token != [] && forall i :: 0 <= i < |token| ==> TokenChar(token[i])
    requires rest == [] || !TokenChar(rest[0])
    ensures Sanitize(kept + "=" + token + rest) == kept + "=***" + Sanitize(rest)
  {
    CredentialLayout(kept, token, rest);
    TokenRunOf(token, rest);
    RedactsAt(kept + "=" + token + rest, kept, |token|, rest);
  }

  lemma CredentialLayout(kept: string, token: string, rest: string)
    requires token != []
    ensures var s := kept + "=" + token + rest;
            |kept| + 1 < |s| && s[..|kept|] == kept && s[|kept|] == '=' && s[|kept| + 1] == token[0]
            && s[|kept| + 1..] == token + rest && s[|kept| + 1 + |token|..] == rest
  {
  }

  lemma RedactsAt(s: string, kept: string, t: nat, rest: string)
    requires NameSpelling(kept)
    requires |kept| + 1 < |s| && s[..|kept|] == kept && s[|kept|] == '=' && TokenChar(s[|kept| + 1])
    requires TokenRun(s[|kept| + 1..]) == t && s[|kept| + 1 + t..] == rest
    ensures Sanitize(s) == kept + "=***" + Sanitize(rest)
  {
    MatchOfSpelling(s, kept);
    SanitizeAtMatch(s, |kept|, t);
  }

  /** One unfolding of `Sanitize` at a match of name length `n` and token
      length `t`. */
  lemma SanitizeAtMatch(s: string, n: nat, t: nat)
    requires MatchesAt(s) && MatchedNameLength(s) == n && n + 1 <= |s| && TokenRun(s[n + 1..]) == t
    ensures Sanitize(s) == s[..n] + "=***" + Sanitize(s[n + 1 + t..])
  {
  }

  /** A name spelling, `=` and a token character start a match whose group
      is that spelling. */
  lemma MatchOfSpelling(s: string, kept: string)
    requires NameSpelling(kept)
    requires |kept| + 1 < |s| && s[..|kept|] == kept && s[|kept|] == '=' && TokenChar(s[|kept| + 1])
    ensures MatchesAt(s) && MatchedNameLength(s) == |kept|
  {
    assert LowerChar(s[1]) == LowerChar(kept[1]) by { assert s[1] == s[..|kept|][1]; }
    if |kept| == |ApiKeyName| && StartsWithName(kept, ApiKeyName) {
      forall i | 0 <= i < |ApiKeyName| ensures LowerChar(s[i]) == ApiKeyName[i] {
        assert s[i] == s[..|kept|][i];
      }
      assert MatchesWith(s, ApiKeyName);
    } else {
      forall i | 0 <= i < |AccessTokenName| ensures LowerChar(s[i]) == AccessTokenName[i] {
        assert s[i] == s[..|kept|][i];
      }
      assert MatchesWith(s, AccessTokenName);
      assert LowerChar(kept[1]) == 'c';
      assert !MatchesWith(s, ApiKeyName) by { assert ApiKeyName[1] == 'p'; }
    }
  }

  lemma {:induction false} TokenRunOf(token: string, rest: string)
    requires forall i :: 0 <= i < |token| ==> TokenChar(token[i])
    requires rest == [] || !TokenChar(rest[0])
    ensures TokenRun(token + rest) == |token|
    decreases |token|
  {
    if token == [] {
      assert token + rest == rest;
    } else {
      assert (token + rest)[1..] == token[1..] + rest;
      TokenRunOf(token[1..], rest);
    }
  }
}
