/** The BNGPortMapping model and the validation its `save` runs. */
module BngModels {
  import opened PyString
  import opened TagSpec
  import opened Records

  /** A BNG port mapping row: an s-tag specification, the BNG port it maps to and
      the specification it had before its last change. */
  datatype BngPortMapping = BngPortMapping(id: int, sTag: string, switchPort: int, oldSTag: Option<string>)

  /** How `validate_range` treats one stripped token. */
  datatype TokenVerdict =
    | TokenOk
    | TokenMalformed   // an `int()` inside the try failed
    | TokenUnpack      // `split("-")` did not give exactly two pieces

  function CheckToken(tok: string): TokenVerdict {
    if IsRangeToken(tok) then
      if !HasTwoHalves(tok) then TokenUnpack
      else if IsIntLiteral(Low(tok)) && IsIntLiteral(High(tok)) then TokenOk
      else TokenMalformed
    else if IsAnyToken(tok) then TokenOk
    else if IsIntLiteral(tok) then TokenOk
    else TokenMalformed
  }

  /** What `validate_range` does: return normally, raise the validation error
      quoting the whole pattern, or let the unpack's ValueError escape. */
  datatype Verdict = Accepted | Malformed(message: string) | UnpackFailure

  function Refusal(v: TokenVerdict, pattern: string): Verdict
    requires v != TokenOk
  {
    if v == TokenMalformed then Malformed("Malformed range " + pattern) else UnpackFailure
  }

  /** The token loop, stopping at the first token that fails. */
  function ValidateTokens(toks: seq<string>, pattern: string): Verdict {
    if |toks| == 0 then Accepted
    else
      var v := CheckToken(toks[0]);
      if v == TokenOk then ValidateTokens(toks[1..], pattern) else Refusal(v, pattern)
  }

  /** `validate_range(pattern)`. */
  function ValidateRange(pattern: string): Verdict {
    ValidateTokens(Tokens(pattern), pattern)
  }

  /** The loop accepts iff every token passes, and a refusal always quotes the whole pattern. */
  lemma {:induction false} ValidateTokensSpec(toks: seq<string>, pattern: string)
    ensures ValidateTokens(toks, pattern) == Accepted <==>
      forall i :: 0 <= i < |toks| ==> CheckToken(toks[i]) == TokenOk
    ensures ValidateTokens(toks, pattern).Malformed? ==>
      ValidateTokens(toks, pattern).message == "Malformed range " + pattern
  {
    if |toks| > 0 && CheckToken(toks[0]) == TokenOk {
      ValidateTokensSpec(toks[1..], pattern);
      assert forall i :: 1 <= i < |toks| ==> toks[i] == toks[1..][i - 1];
    }
  }

  /** The loop refuses at the first failing token, with that token's kind of failure. */
  lemma {:induction false} ValidateFirstFailure(toks: seq<string>, pattern: string, k: nat)
    requires k < |toks| && CheckToken(toks[k]) != TokenOk
    requires forall j :: 0 <= j < k ==> CheckToken(toks[j]) == TokenOk
    ensures ValidateTokens(toks, pattern) == Refusal(CheckToken(toks[k]), pattern)
  {
    if k > 0 {
      assert CheckToken(toks[0]) == TokenOk;
      ValidateFirstFailure(toks[1..], pattern, k - 1);
    }
  }

  /** Tokens are checked as a list: a pattern is the first token, a comma, and the rest. */
  lemma ValidateFirst(a: string, b: string)
    requires ',' !in a
    ensures CheckToken(Strip(a)) == TokenOk ==> ValidateRange(a + [','] + b) == ValidateTokens(Tokens(b), a + [','] + b)
    ensures CheckToken(Strip(a)) != TokenOk ==> ValidateRange(a + [','] + b) == Refusal(CheckToken(Strip(a)), a + [','] + b)
  {
    TokensFirst(a, b);
    assert ([Strip(a)] + Tokens(b))[1..] == Tokens(b);
  }

  /** A token with two or more dashes fails at the unpack, not with the validation error. */
  lemma ManyDashesUnpack(tok: string)
    requires Count(tok, '-') >= 2
    ensures CheckToken(tok) == TokenUnpack
  {
    CountZero(tok, '-');
    TwoHalvesIffOneDash(tok);
  }

  /** The two halves of a token with exactly one '-', at index `i`. */
  lemma HalvesAt(tok: string, i: nat)
    requires i < |tok| && tok[i] == '-' && '-' !in tok[..i] && '-' !in tok[i + 1..]
    ensures IsRangeToken(tok) && HasTwoHalves(tok)
    ensures Low(tok) == Strip(tok[..i]) && High(tok) == Strip(tok[i + 1..])
  {
    SplitFirst(tok, '-', i);
    SplitNoSep(tok[i + 1..], '-');
  }

  /** A token of digits passes. */
  lemma NumericTokenOk(tok: string)
    requires IsNumeric(tok)
    ensures CheckToken(tok) == TokenOk
  {
    NumericIsIntLiteral(tok);
  }

  /** A range of two integer literals passes; one whose half is not an integer literal
      raises the validation error. */
  lemma RangeTokenVerdict(lo: string, hi: string)
    requires '-' !in lo && '-' !in hi
    ensures CheckToken(lo + "-" + hi) == (if IsIntLiteral(Strip(lo)) && IsIntLiteral(Strip(hi)) then TokenOk else TokenMalformed)
  {
    var t := lo + "-" + hi;
    assert t[..|lo|] == lo && t[|lo| + 1..] == hi;
    HalvesAt(t, |lo|);
  }

  /** A pattern without a comma is judged as its one stripped token. */
  lemma ValidateSingle(a: string)
    requires ',' !in a
    ensures ValidateRange(a) == (if CheckToken(Strip(a)) == TokenOk then Accepted else Refusal(CheckToken(Strip(a)), a))
  {
    TokensSingle(a);
    var toks := [Strip(a)];
    assert toks[1..] == [];
    assert ValidateTokens(toks[1..], a) == Accepted;
  }

  /** Accepting a list is accepting its first token and the rest of the list. */
  lemma AcceptedCons(a: string, b: string)
    requires ',' !in a
    ensures ValidateRange(a + [','] + b) == Accepted <==> CheckToken(Strip(a)) == TokenOk && ValidateRange(b) == Accepted
  {
    ValidateFirst(a, b);
    var p := a + [','] + b;
    ValidateTokensSpec(Tokens(b), p);
    ValidateTokensSpec(Tokens(b), b);
  }

  /** A space in front of a token does not change it. */
  lemma StripLeadingSpace(t: string)
    ensures Strip(" " + t) == Strip(t)
  {
    assert (" " + t)[1..] == t;
  }

  /** A space after a number does not change it. */
  lemma StripTrailingSpace(n: string)
    requires IsNumeric(n)
    ensures Strip(n + " ") == n
  {
    assert (n + " ")[..|n|] == n;
    StripNoSpace(n);
  }

  /** A number is accepted. */
  lemma NumberAccepted(n: string)
    requires IsNumeric(n)
    ensures ValidateRange(n) == Accepted
  {
    ValidateSingle(n);
    StripNoSpace(n);
    NumericTokenOk(n);
  }

  /** A comma-and-space separated pair of numbers is accepted. */
  lemma NumberListAccepted(a: string, b: string)
    requires IsNumeric(a) && IsNumeric(b)
    ensures ValidateRange(a + ", " + b) == Accepted
  {
    assert a + ", " + b == a + [','] + (" " + b);
    AcceptedCons(a, " " + b);
    StripNoSpace(a);
    NumericTokenOk(a);
    ValidateSingle(" " + b);
    StripLeadingSpace(b);
    StripNoSpace(b);
    NumericTokenOk(b);
  }

  /** A single range token whose halves `int()` accepts, and around which there is no
      whitespace, is accepted. */
  lemma RangeTokenAccepted(l: string, h: string)
    requires ',' !in l && ',' !in h && '-' !in l && '-' !in h
    requires IsIntLiteral(Strip(l)) && IsIntLiteral(Strip(h))
    requires Strip(l + "-" + h) == l + "-" + h
    ensures ValidateRange(l + "-" + h) == Accepted
  {
    var t := l + "-" + h;
    assert ',' !in t;
    ValidateSingle(t);
    RangeTokenVerdict(l, h);
  }

  /** A number has no comma, dash or whitespace in it. */
  lemma NumericPlain(n: string)
    requires IsNumeric(n)
    ensures ',' !in n && '-' !in n
    ensures !IsSpace(n[0]) && !IsSpace(n[|n| - 1])
  {
  }

  /** A range of two numbers without spaces, `lo-hi`, is accepted. */
  lemma TightRangeAccepted(lo: string, hi: string)
    requires IsNumeric(lo) && IsNumeric(hi)
    ensures ValidateRange(lo + "-" + hi) == Accepted
  {
    NumericPlain(lo);
    NumericPlain(hi);
    StripNoSpace(lo);
    StripNoSpace(hi);
    NumericIsIntLiteral(lo);
    NumericIsIntLiteral(hi);
    var t := lo + "-" + hi;
    assert t[0] == lo[0] && t[|t| - 1] == hi[|hi| - 1];
    StripNoSpace(t);
    RangeTokenAccepted(lo, hi);
  }

  /** A range of two numbers with a space on each side of the dash, `lo - hi`, is accepted. */
  lemma SpacedRangeAccepted(lo: string, hi: string)
    requires IsNumeric(lo) && IsNumeric(hi)
    ensures ValidateRange(lo + " - " + hi) == Accepted
  {
    var l := lo + " ";
    var h := " " + hi;
    assert lo + " - " + hi == l + "-" + h;
    NumericPlain(lo);
    NumericPlain(hi);
    assert ',' !in l && '-' !in l && ',' !in h && '-' !in h;
    StripTrailingSpace(lo);
    StripLeadingSpace(hi);
    StripNoSpace(hi);
    NumericIsIntLiteral(lo);
    NumericIsIntLiteral(hi);
    var t := l + "-" + h;
    assert t[0] == lo[0] && t[|t| - 1] == hi[|hi| - 1];
    StripNoSpace(t);
    RangeTokenAccepted(l, h);
  }

  /** A leading space does not change whether a single token is accepted. */
  lemma LeadingSpaceAccepted(x: string)
    requires ',' !in x
    ensures ValidateRange(" " + x) == Accepted <==> ValidateRange(x) == Accepted
  {
    assert ',' !in " " + x;
    ValidateSingle(" " + x);
    ValidateSingle(x);
    StripLeadingSpace(x);
  }

  /** A tight range, a comma, a space and a spaced range are accepted together. */
  lemma RangeListAccepted(lo1: string, hi1: string, lo2: string, hi2: string)
    requires IsNumeric(lo1) && IsNumeric(hi1) && IsNumeric(lo2) && IsNumeric(hi2)
    ensures ValidateRange(lo1 + "-" + hi1 + ", " + lo2 + " - " + hi2) == Accepted
  {
    var first := lo1 + "-" + hi1;
    var second := lo2 + " - " + hi2;
    assert lo1 + "-" + hi1 + ", " + lo2 + " - " + hi2 == first + [','] + (" " + second);
    NumericPlain(lo1);
    NumericPlain(hi1);
    NumericPlain(lo2);
    NumericPlain(hi2);
    assert ',' !in first && ',' !in second;
    TightRangeAccepted(lo1, hi1);
    ValidateSingle(first);
    SpacedRangeAccepted(lo2, hi2);
    LeadingSpaceAccepted(second);
    AcceptedCons(first, " " + second);
  }

  /** A lower-case word other than "any" is refused with the validation error. */
  lemma WordRejected(w: string)
    requires |w| > 0 && (forall i :: 0 <= i < |w| ==> 'a' <= w[i] <= 'z') && w != "any"
    ensures ValidateRange(w) == Malformed("Malformed range " + w)
  {
    ValidateSingle(w);
    StripNoSpace(w);
    assert Lower(w) == w;
    assert !IsNumeric(w);
  }

  /** A number followed by a bare dash is refused with the validation error. */
  lemma HalfRangeRejected(n: string)
    requires IsNumeric(n)
    ensures ValidateRange(n + "-") == Malformed("Malformed range " + n + "-")
  {
    assert ',' !in n + "-";
    ValidateSingle(n + "-");
    StripNoSpace(n + "-");
    RangeTokenVerdict(n, "");
    assert n + "-" + "" == n + "-";
  }

  /** A trailing comma leaves an empty last token, which is refused. */
  lemma TrailingCommaRejected(a: string)
    requires ',' !in a && CheckToken(Strip(a)) == TokenOk
    ensures ValidateRange(a + ",") == Malformed("Malformed range " + a + ",")
  {
    assert a + "," == a + [','] + "";
    ValidateFirst(a, "");
  }

  /** A number followed by a comma is refused with the validation error. */
  lemma NumberTrailingCommaRejected(n: string)
    requires IsNumeric(n)
    ensures ValidateRange(n + ",") == Malformed("Malformed range " + n + ",")
  {
    NumericPlain(n);
    StripNoSpace(n);
    NumericTokenOk(n);
    TrailingCommaRejected(n);
  }

  /** "any" in any mix of cases is accepted. */
  lemma AnyAccepted(w: string)
    requires |w| == 3 && LowerChar(w[0]) == 'a' && LowerChar(w[1]) == 'n' && LowerChar(w[2]) == 'y'
    ensures ValidateRange(w) == Accepted
  {
    assert ',' !in w && '-' !in w;
    ValidateSingle(w);
    StripNoSpace(w);
    assert Lower(w) == "any";
  }

  /** Three numbers joined by two dashes escape validation with the unpack's ValueError. */
  lemma TwoDashesEscape(a: string, b: string, c: string)
    requires IsNumeric(a) && IsNumeric(b) && IsNumeric(c)
    ensures ValidateRange(a + "-" + b + "-" + c) == UnpackFailure
  {
    NumericPlain(a);
    NumericPlain(b);
    NumericPlain(c);
    var t := a + "-" + b + "-" + c;
    assert ',' !in t;
    ValidateSingle(t);
    assert t[0] == a[0] && t[|t| - 1] == c[|c| - 1];
    StripNoSpace(t);
    CountConcat(a, "-", '-');
    CountConcat(a + "-", b, '-');
    CountConcat(a + "-" + b, "-", '-');
    CountConcat(a + "-" + b + "-", c, '-');
    CountZero(a, '-');
    CountZero(b, '-');
    CountZero(c, '-');
    ManyDashesUnpack(t);
  }

  /** The patterns test_models.py uses. */
  lemma AcceptsSingle()
    ensures ValidateRange("123") == Accepted
  {
    NumberAccepted("123");
  }

  lemma AcceptsAny()
    ensures ValidateRange("ANY") == Accepted
    ensures ValidateRange("any") == Accepted
  {
    AnyAccepted("ANY");
    AnyAccepted("any");
  }

  lemma RejectsEmpty()
    ensures ValidateRange("") == Malformed("Malformed range ")
  {
  }

  lemma RejectsTrailingComma()
    ensures ValidateRange("123" + ",") == Malformed("Malformed range " + "123" + ",")
  {
    NumberTrailingCommaRejected("123");
  }

  /** "1-2-3" escapes validation with the unpack's ValueError. */
  lemma DoubleDashEscapes()
    ensures ValidateRange("1" + "-" + "2" + "-" + "3") == UnpackFailure
  {
    TwoDashesEscape("1", "2", "3");
  }

  /** What `save` does: the parent save runs only when validation returns normally. */
  datatype SaveOutcome = Persisted(mapping: BngPortMapping) | Refused(verdict: Verdict)

  function Save(m: BngPortMapping): (r: SaveOutcome)
    ensures r.Persisted? <==> ValidateRange(m.sTag) == Accepted
    ensures r.Persisted? ==> r.mapping == m
    ensures r.Refused? ==> r.verdict == ValidateRange(m.sTag) && r.verdict != Accepted
  {
    var v := ValidateRange(m.sTag);
    if v == Accepted then Persisted(m) else Refused(v)
  }
}
