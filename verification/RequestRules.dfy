// http2/conn.v: the malformed-request rules of RFC 9113 sections 8.1 to 8.3, stated declaratively, and the
// loops that check them.
module RequestRules {
  import opened Bytes
  import opened HpackTable

  function MethodName(): seq<byte> { Ascii(":method") }
  function SchemeName(): seq<byte> { Ascii(":scheme") }
  function PathName(): seq<byte> { Ascii(":path") }
  function AuthorityName(): seq<byte> { Ascii(":authority") }
  function TeName(): seq<byte> { Ascii("te") }
  function ContentLengthName(): seq<byte> { Ascii("content-length") }
  function Connect(): seq<byte> { Ascii("CONNECT") }
  function Trailers(): seq<byte> { Ascii("trailers") }

  // ----- field names

  predicate ForbiddenOctet(c: byte) {
    65 <= c <= 90 || c == 32 || c == 0
  }

  predicate ConnectionSpecific(name: seq<byte>) {
    || name == Ascii("connection")
    || name == Ascii("keep-alive")
    || name == Ascii("proxy-connection")
    || name == Ascii("transfer-encoding")
    || name == Ascii("upgrade")
  }

  ghost predicate ValidName(name: seq<byte>) {
    (forall i :: 0 <= i < |name| ==> !ForbiddenOctet(name[i])) && !ConnectionSpecific(name)
  }

  method ValidRegularFieldName(name: seq<byte>) returns (ok: bool)
    ensures ok <==> ValidName(name)
  {
    for i := 0 to |name|
      invariant forall j :: 0 <= j < i ==> !ForbiddenOctet(name[j])
    {
      var ch := name[i];
      if ForbiddenOctet(ch) {
        return false;
      }
    }
    return !ConnectionSpecific(name);
  }

  predicate IsPseudo(f: Field) {
    |f.name| > 0 && f.name[0] == 58
  }

  ghost predicate ValidTrailers(fs: seq<Field>) {
    forall i :: 0 <= i < |fs| ==> fs[i].name != [] && !IsPseudo(fs[i]) && ValidName(fs[i].name)
  }

  method ValidTrailerFields(fs: seq<Field>) returns (ok: bool)
    ensures ok <==> ValidTrailers(fs)
  {
    hide ValidName;
    for i := 0 to |fs|
      invariant ValidTrailers(fs[..i])
    {
      var name := ValidRegularFieldName(fs[i].name);
      if |fs[i].name| == 0 || fs[i].name[0] == 58 || !name {
        return false;
      }
      assert forall j :: 0 <= j <= i ==> fs[..i + 1][j] == fs[j];
      assert forall j :: 0 <= j < i ==> fs[..i][j] == fs[j];
    }
    assert fs[..|fs|] == fs;
    return true;
  }

  // ----- content-length

  predicate AllDigits(s: seq<byte>) {
    forall i :: 0 <= i < |s| ==> 48 <= s[i] <= 57
  }

  function Decimal(s: seq<byte>): nat
    requires AllDigits(s)
  {
    if s == [] then 0 else Decimal(s[..|s| - 1]) * 10 + (s[|s| - 1] - 48)
  }

  /** The number a strictly decimal content-length of at most 18 digits names, else -1. */
  function ContentLength(s: seq<byte>): int {
    if 0 < |s| <= 18 && AllDigits(s) then Decimal(s) else -1
  }

  method ParseContentLength(s: seq<byte>) returns (n: int)
    ensures n == ContentLength(s)
  {
    if |s| == 0 || |s| > 18 {
      return -1;
    }
    n := 0;
    for i := 0 to |s|
      invariant AllDigits(s[..i]) && n == Decimal(s[..i])
    {
      var ch := s[i];
      if ch < 48 || ch > 57 {
        return -1;
      }
      assert s[..i + 1][..i] == s[..i];
      n := n * 10 + (ch - 48);
    }
    assert s[..|s|] == s;
  }

  // ----- requests

  function Count(fs: seq<Field>, name: seq<byte>): nat {
    if fs == [] then 0
    else Count(fs[..|fs| - 1], name) + (if fs[|fs| - 1].name == name then 1 else 0)
  }

  /** The number of the last content-length field, or -1. */
  function DeclaredLength(fs: seq<Field>): int {
    if fs == [] then -1
    else if fs[|fs| - 1].name == ContentLengthName() then ContentLength(fs[|fs| - 1].value)
    else DeclaredLength(fs[..|fs| - 1])
  }

  ghost predicate ValidField(f: Field) {
    && f.name != []
    && if IsPseudo(f) then
         && (f.name == MethodName() || f.name == SchemeName() || f.name == PathName() || f.name == AuthorityName())
         && (f.name == PathName() ==> f.value != [])
       else
         && ValidName(f.name)
         && (f.name == TeName() ==> f.value == Trailers())
         && (f.name == ContentLengthName() ==> ContentLength(f.value) >= 0)
  }

  /** Each field is allowed, pseudo-headers come first, and content-lengths agree. */
  ghost predicate FieldsAllowed(fs: seq<Field>) {
    && (forall i :: 0 <= i < |fs| ==> ValidField(fs[i]))
    && (forall i, j :: 0 <= i < j < |fs| && IsPseudo(fs[j]) ==> IsPseudo(fs[i]))
    && (forall i, j :: 0 <= i < j < |fs| && fs[i].name == fs[j].name == ContentLengthName() ==>
                         ContentLength(fs[i].value) == ContentLength(fs[j].value))
  }

  ghost predicate HasMethod(fs: seq<Field>, m: seq<byte>) {
    exists i :: 0 <= i < |fs| && fs[i].name == MethodName() && fs[i].value == m
  }

  /** The mandatory pseudo-headers: CONNECT has :authority alone, everything else :scheme and :path. */
  ghost predicate PseudoHeadersComplete(fs: seq<Field>) {
    && Count(fs, MethodName()) == 1 && Count(fs, AuthorityName()) <= 1
    && if HasMethod(fs, Connect()) then
         Count(fs, SchemeName()) == 0 && Count(fs, PathName()) == 0 && Count(fs, AuthorityName()) == 1
       else
         Count(fs, SchemeName()) == 1 && Count(fs, PathName()) == 1
  }

  ghost predicate ValidRequest(fs: seq<Field>) {
    FieldsAllowed(fs) && PseudoHeadersComplete(fs)
  }

  lemma NamesDistinct()
    ensures MethodName() != SchemeName() && MethodName() != PathName() && MethodName() != AuthorityName()
    ensures SchemeName() != PathName() && SchemeName() != AuthorityName() && PathName() != AuthorityName()
    ensures MethodName()[0] == SchemeName()[0] == PathName()[0] == AuthorityName()[0] == 58
    ensures TeName()[0] != 58 && ContentLengthName()[0] != 58
  {
    assert MethodName()[1] != SchemeName()[1];
  }

  /** In a request whose fields are allowed, the declared length is the number of every content-length field. */
  lemma {:induction false} DeclaredLengthMeaning(fs: seq<Field>)
    requires FieldsAllowed(fs)
    ensures DeclaredLength(fs) >= 0 <==> exists i :: 0 <= i < |fs| && fs[i].name == ContentLengthName()
    ensures forall i :: 0 <= i < |fs| && fs[i].name == ContentLengthName() ==>
                          ContentLength(fs[i].value) == DeclaredLength(fs)
    ensures DeclaredLength(fs) >= -1
  {
    NamesDistinct();
    hide ValidName, ContentLength, Ascii;
    if fs != [] {
      var n := |fs| - 1;
      var front := fs[..n];
      assert forall i :: 0 <= i < n ==> front[i] == fs[i];
      DeclaredLengthMeaning(front);
      assert forall i :: 0 <= i < |fs| ==> i == n || fs[i] == front[i];
      if fs[n].name == ContentLengthName() {
        assert ValidField(fs[n]);
      } else if DeclaredLength(front) >= 0 {
        var i :| 0 <= i < n && front[i].name == ContentLengthName();
        assert fs[i].name == ContentLengthName();
      }
    }
  }

  // ----- the checking loop

  predicate AllPseudo(fs: seq<Field>) {
    forall i :: 0 <= i < |fs| ==> IsPseudo(fs[i])
  }

  function LastMethod(fs: seq<Field>): seq<byte> {
    if fs == [] then []
    else if fs[|fs| - 1].name == MethodName() then fs[|fs| - 1].value
    else LastMethod(fs[..|fs| - 1])
  }

  /** What one more field adds to an allowed list. */
  lemma AllowedSnoc(a: seq<Field>, f: Field)
    requires FieldsAllowed(a)
    ensures FieldsAllowed(a + [f]) <==>
            ValidField(f) && (IsPseudo(f) ==> AllPseudo(a))
            && (f.name == ContentLengthName() && DeclaredLength(a) >= 0 ==> ContentLength(f.value) == DeclaredLength(a))
  {
    hide ValidField, ContentLength, Ascii, MethodName, ContentLengthName;
    var b := a + [f];
    DeclaredLengthMeaning(a);
    assert forall i :: 0 <= i < |a| ==> b[i] == a[i];
    if FieldsAllowed(b) {
      assert ValidField(b[|a|]);
      forall i | 0 <= i < |a| && IsPseudo(f) ensures IsPseudo(a[i]) {
        assert IsPseudo(b[|a|]) && b[i] == a[i];
      }
      if f.name == ContentLengthName() && DeclaredLength(a) >= 0 {
        var i :| 0 <= i < |a| && a[i].name == ContentLengthName();
        assert b[i].name == b[|a|].name;
      }
    }
  }

  lemma CountSnoc(a: seq<Field>, f: Field, n: seq<byte>)
    ensures Count(a + [f], n) == Count(a, n) + (if f.name == n then 1 else 0)
  {
    assert (a + [f])[..|a|] == a;
  }

  lemma LastMethodSnoc(a: seq<Field>, f: Field)
    ensures LastMethod(a + [f]) == if f.name == MethodName() then f.value else LastMethod(a)
  {
    hide MethodName;
    assert (a + [f])[..|a|] == a;
  }

  lemma DeclaredLengthSnoc(a: seq<Field>, f: Field)
    ensures DeclaredLength(a + [f]) ==
            if f.name == ContentLengthName() then ContentLength(f.value) else DeclaredLength(a)
  {
    hide ContentLength, ContentLengthName;
    assert (a + [f])[..|a|] == a;
  }

  lemma AllPseudoSnoc(a: seq<Field>, f: Field)
    ensures AllPseudo(a + [f]) <==> AllPseudo(a) && IsPseudo(f)
  {
    hide IsPseudo;
    var b := a + [f];
    assert forall i :: 0 <= i < |a| ==> b[i] == a[i];
    assert b[|a|] == f;
  }

  lemma Snocs(a: seq<Field>, f: Field)
    ensures LastMethod(a + [f]) == if f.name == MethodName() then f.value else LastMethod(a)
    ensures DeclaredLength(a + [f]) ==
            if f.name == ContentLengthName() then ContentLength(f.value) else DeclaredLength(a)
    ensures AllPseudo(a + [f]) <==> AllPseudo(a) && IsPseudo(f)
  {
    hide *;
    LastMethodSnoc(a, f);
    DeclaredLengthSnoc(a, f);
    AllPseudoSnoc(a, f);
  }

  lemma {:induction false} NoneCounted(fs: seq<Field>, name: seq<byte>)
    requires Count(fs, name) == 0
    ensures forall i :: 0 <= i < |fs| ==> fs[i].name != name
  {
    if fs != [] {
      NoneCounted(fs[..|fs| - 1], name);
      assert forall i :: 0 <= i < |fs| - 1 ==> fs[i] == fs[..|fs| - 1][i];
    }
  }

  lemma {:induction false} OneMethod(fs: seq<Field>, m: seq<byte>)
    requires Count(fs, MethodName()) == 1
    ensures HasMethod(fs, m) <==> LastMethod(fs) == m
  {
    hide Ascii, MethodName;
    var n := |fs| - 1;
    var front := fs[..n];
    assert forall i :: 0 <= i < n ==> fs[i] == front[i];
    if fs[n].name == MethodName() {
      NoneCounted(front, MethodName());
    } else {
      OneMethod(front, m);
      if HasMethod(front, m) {
        var i :| 0 <= i < n && front[i].name == MethodName() && front[i].value == m;
        assert fs[i].name == MethodName();
      }
    }
  }

  /** A prefix of an allowed list is allowed, so a prefix that is not already decides. */
  lemma PrefixDecides(fs: seq<Field>, k: nat)
    requires k <= |fs|
    ensures ValidRequest(fs) ==> FieldsAllowed(fs[..k])
  {
    hide ValidField, ContentLength, Ascii, MethodName, ContentLengthName;
    assert forall i :: 0 <= i < k ==> fs[..k][i] == fs[i];
  }

  lemma StepFacts(fs: seq<Field>, i: nat)
    requires i < |fs| && FieldsAllowed(fs[..i])
    ensures var a, f := fs[..i], fs[i];
            FieldsAllowed(fs[..i + 1]) <==>
            ValidField(f) && (IsPseudo(f) ==> AllPseudo(a))
            && (f.name == ContentLengthName() && DeclaredLength(a) >= 0 ==> ContentLength(f.value) == DeclaredLength(a))
    ensures forall n :: Count(fs[..i + 1], n) == Count(fs[..i], n) + (if fs[i].name == n then 1 else 0)
    ensures LastMethod(fs[..i + 1]) == if fs[i].name == MethodName() then fs[i].value else LastMethod(fs[..i])
    ensures DeclaredLength(fs[..i + 1]) ==
            if fs[i].name == ContentLengthName() then ContentLength(fs[i].value) else DeclaredLength(fs[..i])
    ensures AllPseudo(fs[..i + 1]) <==> AllPseudo(fs[..i]) && IsPseudo(fs[i])
    ensures ValidRequest(fs) ==> FieldsAllowed(fs[..i + 1])
  {
    assert fs[..i + 1] == fs[..i] + [fs[i]];
    AllowedSnoc(fs[..i], fs[i]);
    Snocs(fs[..i], fs[i]);
    forall n { CountSnoc(fs[..i], fs[i], n); }
    PrefixDecides(fs, i + 1);
  }

  /** `validate_request_fields`: the verdict is the declarative one, and a valid request's declared length comes with
      it. */
  method ValidateRequestFields(fs: seq<Field>) returns (ok: bool, declared: int)
    ensures ok <==> ValidRequest(fs)
    ensures declared == if ok then DeclaredLength(fs) else -1
  {
    var seenRegular, method_ := false, [];
    var nMethod, nScheme, nPath, nAuthority := 0, 0, 0, 0;
    declared := -1;
    NamesDistinct();
    hide Ascii, FieldsAllowed, ValidName, ContentLength, Count, LastMethod, DeclaredLength, AllPseudo;
    hide MethodName, SchemeName, PathName, AuthorityName, ContentLengthName, TeName;
    EmptyFacts(fs[..0]);
    for i := 0 to |fs|
      invariant FieldsAllowed(fs[..i]) && declared == DeclaredLength(fs[..i])
      invariant seenRegular <==> !AllPseudo(fs[..i])
      invariant nMethod == Count(fs[..i], MethodName()) && nScheme == Count(fs[..i], SchemeName())
      invariant nPath == Count(fs[..i], PathName()) && nAuthority == Count(fs[..i], AuthorityName())
      invariant method_ == LastMethod(fs[..i])
    {
      var f := fs[i];
      StepFacts(fs, i);
      if |f.name| == 0 {
        return false, -1;
      }
      if f.name[0] == 58 {
        if seenRegular {
          return false, -1;
        }
        if f.name == MethodName() {
          nMethod := nMethod + 1;
          method_ := f.value;
        } else if f.name == SchemeName() {
          nScheme := nScheme + 1;
        } else if f.name == PathName() {
          nPath := nPath + 1;
          if |f.value| == 0 {
            return false, -1;
          }
        } else if f.name == AuthorityName() {
          nAuthority := nAuthority + 1;
        } else {
          return false, -1;
        }
        continue;
      }
      seenRegular := true;
      var nameOk := ValidRegularFieldName(f.name);
      if !nameOk {
        return false, -1;
      }
      if f.name == TeName() && f.value != Trailers() {
        return false, -1;
      }
      if f.name == ContentLengthName() {
        var n := ParseContentLength(f.value);
        if n < 0 {
          return false, -1;
        }
        if declared >= 0 && declared != n {
          return false, -1;
        }
        declared := n;
      }
    }
    assert fs[..|fs|] == fs;
    if nMethod != 1 || nAuthority > 1 {
      return false, -1;
    }
    OneMethod(fs, Connect());
    if method_ == Connect() {
      if nScheme != 0 || nPath != 0 || nAuthority != 1 {
        return false, -1;
      }
    } else if nScheme != 1 || nPath != 1 {
      return false, -1;
    }
    return true, declared;
  }

  lemma EmptyFacts(a: seq<Field>)
    requires a == []
    ensures FieldsAllowed(a) && AllPseudo(a) && DeclaredLength(a) == -1 && LastMethod(a) == []
    ensures forall n :: Count(a, n) == 0
  {
  }
}
