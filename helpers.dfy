/** The static helpers the sync steps share: URL normalisation, the lookup of the
    fabric's ONOS controller among a service's providers, and the s-tag matcher. */
module Helpers {
  import opened PyString
  import opened TagSpec
  import opened Records
  import opened BngModels

  /** `format_url`: a URL that mentions "http" anywhere is kept, any other gets "http://" in front. */
  function FormatUrl(url: string): (r: string)
    ensures Contains(r, "http")
    ensures r == url <==> Contains(url, "http")
    ensures r != url ==> r == "http://" + url
  {
    if Contains(url, "http") then url
    else
      assert "http://" + url == "http" + ("://" + url);
      PrefixContains("http", "://" + url);
      "http://" + url
  }

  /** Normalising twice is normalising once. */
  lemma FormatUrlIdempotent(url: string)
    ensures FormatUrl(FormatUrl(url)) == FormatUrl(url)
  {
  }

  /** A URL without the letter 'h' cannot mention "http", so it gets the prefix. */
  lemma FormatUrlPrefixes(url: string)
    requires 'h' !in url
    ensures FormatUrl(url) == "http://" + url
  {
    NoHeadNoContains(url, "http");
  }

  /** The two URLs the sync step's tests normalise. */
  lemma FormatUrlExamples()
    ensures FormatUrl("foo.com" + "/bar") == "http://" + "foo.com" + "/bar"
    ensures FormatUrl("http://foo.com/bar") == "http://foo.com/bar"
  {
    var u := "foo.com" + "/bar";
    assert 'h' !in u;
    FormatUrlPrefixes(u);
    PrefixContains("http", "://foo.com/bar");
    assert "http://foo.com/bar" == "http" + "://foo.com/bar";
  }

  /** The connection settings `get_fabric_onos_info` returns. */
  datatype OnosInfo = OnosInfo(url: string, user: string, password: string)

  /** A provider whose lower-cased name contains "onos". */
  predicate IsOnos(p: ProviderService) {
    Contains(Lower(p.name), "onos")
  }

  /** The comprehension `[s for s in provider_services if "onos" in s.name.lower()]`. */
  function OnosProviders(ps: seq<ProviderService>): (r: seq<ProviderService>)
    ensures |r| <= |ps|
  {
    if |ps| == 0 then []
    else if IsOnos(ps[0]) then [ps[0]] + OnosProviders(ps[1..])
    else OnosProviders(ps[1..])
  }

  /** `ps[k]` is the first ONOS provider of `ps`. */
  predicate FirstOnosAt(ps: seq<ProviderService>, k: int) {
    0 <= k < |ps| && IsOnos(ps[k]) && forall j :: 0 <= j < k ==> !IsOnos(ps[j])
  }

  /** The settings built from one provider: `format_url("host:port")`, user and password. */
  function InfoOf(p: ProviderService): OnosInfo {
    OnosInfo(FormatUrl(p.restHostname + ":" + p.restPort), p.restUsername, p.restPassword)
  }

  /** `get_fabric_onos_info`; `None` where the code raises because no provider is an ONOS. */
  function FabricOnosInfo(service: Service): (r: Option<OnosInfo>) {
    var onos := OnosProviders(service.providerServices);
    if |onos| == 0 then None else Some(InfoOf(onos[0]))
  }

  /** The first ONOS provider heads the filtered list; there is none exactly when the list is empty. */
  lemma {:induction false} OnosProvidersHead(ps: seq<ProviderService>)
    ensures |OnosProviders(ps)| == 0 <==> forall j :: 0 <= j < |ps| ==> !IsOnos(ps[j])
    ensures forall k :: FirstOnosAt(ps, k) ==> OnosProviders(ps)[0] == ps[k]
  {
    if |ps| > 0 {
      var rest := ps[1..];
      OnosProvidersHead(rest);
      if !IsOnos(ps[0]) {
        assert OnosProviders(ps) == OnosProviders(rest);
        assert forall j :: 1 <= j < |ps| ==> ps[j] == rest[j - 1];
        forall k | FirstOnosAt(ps, k)
          ensures OnosProviders(ps)[0] == ps[k]
        {
          assert FirstOnosAt(rest, k - 1);
        }
      } else {
        assert OnosProviders(ps)[0] == ps[0];
        forall k | FirstOnosAt(ps, k)
          ensures k == 0
        {
        }
      }
    }
  }

  /** Some first ONOS provider exists unless none is an ONOS. */
  lemma {:induction false} FirstOnosExists(ps: seq<ProviderService>)
    requires exists j :: 0 <= j < |ps| && IsOnos(ps[j])
    ensures exists k :: FirstOnosAt(ps, k)
  {
    if IsOnos(ps[0]) {
      assert FirstOnosAt(ps, 0);
    } else {
      var j :| 0 <= j < |ps| && IsOnos(ps[j]);
      assert IsOnos(ps[1..][j - 1]);
      FirstOnosExists(ps[1..]);
      var k :| FirstOnosAt(ps[1..], k);
      assert FirstOnosAt(ps, k + 1);
    }
  }

  /** `get_fabric_onos_info` fails exactly when no provider is an ONOS, and otherwise
      takes the url, user and password of the first one. */
  lemma FabricOnosInfoSpec(service: Service)
    ensures FabricOnosInfo(service).None? <==>
      forall j :: 0 <= j < |service.providerServices| ==> !IsOnos(service.providerServices[j])
    ensures forall k :: FirstOnosAt(service.providerServices, k) ==>
      FabricOnosInfo(service) == Some(InfoOf(service.providerServices[k]))
  {
    OnosProvidersHead(service.providerServices);
  }

  /** A name that starts with "onos" marks an ONOS provider. */
  lemma OnosPrefixIsOnos(p: ProviderService, rest: string)
    requires p.name == "onos" + rest
    ensures IsOnos(p)
  {
    var l := Lower(p.name);
    assert l[..4] == "onos";
    assert l == "onos" + l[4..];
    PrefixContains("onos", l[4..]);
  }

  /** A service with one ONOS provider connects to that provider. */
  lemma SingleOnos(id: int, p: ProviderService)
    requires IsOnos(p)
    ensures FabricOnosInfo(Service(id, [p])) == Some(InfoOf(p))
  {
    assert [p][1..] == [];
  }

  /** A service whose only provider is an ONOS gets that provider's settings, the host and
      port joined by ':' behind "http://" when neither holds an 'h'. */
  lemma SingleOnosInfo(id: int, p: ProviderService)
    requires IsOnos(p) && 'h' !in p.restHostname && 'h' !in p.restPort
    ensures FabricOnosInfo(Service(id, [p]))
      == Some(OnosInfo("http://" + p.restHostname + ":" + p.restPort, p.restUsername, p.restPassword))
  {
    SingleOnos(id, p);
    var host := p.restHostname + ":" + p.restPort;
    assert 'h' !in host;
    FormatUrlPrefixes(host);
    assert "http://" + host == "http://" + p.restHostname + ":" + p.restPort;
  }

  /** The fixture of the sync step's tests: one provider "onos-fabric" at port "8181". */
  lemma FabricOnosInfoExample()
    ensures FabricOnosInfo(Service(1, [ProviderService("onos" + "-fabric", "onos-fabric", "8181", "onos", "rocks")]))
      == Some(OnosInfo("http://" + "onos-fabric" + ":" + "8181", "onos", "rocks"))
  {
    var p := ProviderService("onos" + "-fabric", "onos-fabric", "8181", "onos", "rocks");
    OnosPrefixIsOnos(p, "-fabric");
    SingleOnosInfo(1, p);
  }

  /** What `range_matches` returns: `True`, `False` from an "any" token, `None`
      from running off the end, or the ValueError of a bad range token. */
  datatype Match = Matches | AnyToken | NoMatch | MatchError

  /** What one token does to the scan: `NoMatch` means the scan goes on. */
  function TokenStep(value: int, tok: string): Match {
    if IsRangeToken(tok) then
      if !HasTwoHalves(tok) || !IsIntLiteral(Low(tok)) || !IsIntLiteral(High(tok)) then MatchError
      else if IntValue(Low(tok)) <= value <= IntValue(High(tok)) then Matches
      else NoMatch
    else if IsAnyToken(tok) then AnyToken
    else NoMatch
  }

  /** The scan: the first token that decides, or `NoMatch` when none does. */
  function MatchTokens(value: int, toks: seq<string>): Match {
    if |toks| == 0 then NoMatch
    else
      var s := TokenStep(value, toks[0]);
      if s != NoMatch then s else MatchTokens(value, toks[1..])
  }

  /** `range_matches(value, pattern)` for an integer `value`. */
  function RangeMatches(value: int, pattern: string): Match {
    MatchTokens(value, Tokens(pattern))
  }

  /** Token `k` is the first that decides the scan. */
  predicate DecidesAt(value: int, toks: seq<string>, k: int) {
    0 <= k < |toks| && TokenStep(value, toks[k]) != NoMatch
    && forall j :: 0 <= j < k ==> TokenStep(value, toks[j]) == NoMatch
  }

  /** The scan's answer is that of the first deciding token, and `NoMatch` exactly when no token decides. */
  lemma {:induction false} MatchTokensSpec(value: int, toks: seq<string>)
    ensures MatchTokens(value, toks) == NoMatch <==> forall j :: 0 <= j < |toks| ==> TokenStep(value, toks[j]) == NoMatch
    ensures forall k :: DecidesAt(value, toks, k) ==> MatchTokens(value, toks) == TokenStep(value, toks[k])
  {
    if |toks| > 0 {
      MatchTokensSpec(value, toks[1..]);
      forall k | DecidesAt(value, toks, k)
        ensures MatchTokens(value, toks) == TokenStep(value, toks[k])
      {
        if k > 0 {
          assert DecidesAt(value, toks[1..], k - 1);
        }
      }
      if TokenStep(value, toks[0]) == NoMatch {
        assert forall j :: 1 <= j < |toks| ==> toks[j] == toks[1..][j - 1];
      }
    }
  }

  /** `range_matches` is `True` exactly when a range holding `value` comes before any
      "any" token and before any bad range token. */
  lemma MatchesIffHitFirst(value: int, toks: seq<string>)
    ensures MatchTokens(value, toks) == Matches <==>
      exists k :: DecidesAt(value, toks, k) && TokenStep(value, toks[k]) == Matches
  {
    MatchTokensSpec(value, toks);
    if MatchTokens(value, toks) == Matches {
      FirstDecider(value, toks);
    }
  }

  /** When the scan stops, some token is the first to decide. */
  lemma {:induction false} FirstDecider(value: int, toks: seq<string>)
    requires MatchTokens(value, toks) != NoMatch
    ensures exists k :: DecidesAt(value, toks, k) && TokenStep(value, toks[k]) == MatchTokens(value, toks)
  {
    if TokenStep(value, toks[0]) != NoMatch {
      assert DecidesAt(value, toks, 0);
    } else {
      FirstDecider(value, toks[1..]);
      var k :| DecidesAt(value, toks[1..], k) && TokenStep(value, toks[1..][k]) == MatchTokens(value, toks[1..]);
      assert DecidesAt(value, toks, k + 1);
    }
  }

  /** An "any" token after tokens that did not decide ends the scan with `False`,
      whatever follows it. */
  lemma {:induction false} AnyEndsScan(value: int, before: seq<string>, tok: string, after: seq<string>)
    requires forall j :: 0 <= j < |before| ==> TokenStep(value, before[j]) == NoMatch
    requires !IsRangeToken(tok) && IsAnyToken(tok)
    ensures MatchTokens(value, before + [tok] + after) == AnyToken
  {
    if |before| > 0 {
      AnyEndsScan(value, before[1..], tok, after);
      assert (before + [tok] + after)[1..] == before[1..] + [tok] + after;
    }
  }

  /** A token without a dash never answers `True`: bare integers are passed over. */
  lemma DashFreeTokenNeverMatches(value: int, tok: string)
    requires !IsRangeToken(tok)
    ensures TokenStep(value, tok) == (if IsAnyToken(tok) then AnyToken else NoMatch)
  {
  }

  /** A pattern without a dash never answers `True`. */
  lemma DashFreePatternNeverMatches(value: int, pattern: string)
    requires '-' !in pattern
    ensures RangeMatches(value, pattern) != Matches
  {
    var toks := Tokens(pattern);
    TokensAvoid(pattern, '-');
    MatchesIffHitFirst(value, toks);
  }

  /** A character absent from the pattern is absent from every token. */
  lemma TokensAvoid(pattern: string, c: char)
    requires c !in pattern
    ensures forall i :: 0 <= i < |Tokens(pattern)| ==> c !in Tokens(pattern)[i]
  {
    var pieces := Split(pattern, ',');
    SplitAvoid(pattern, ',', c);
    StripEachSpec(pieces);
    forall i | 0 <= i < |pieces|
      ensures c !in Strip(pieces[i])
    {
      StripAvoid(pieces[i], c);
    }
  }

  /** A pattern that `validate_range` accepts never makes `range_matches` raise. */
  lemma ValidatedNeverRaises(value: int, pattern: string)
    requires ValidateRange(pattern) == Accepted
    ensures RangeMatches(value, pattern) != MatchError
  {
    var toks := Tokens(pattern);
    ValidateTokensSpec(toks, pattern);
    if MatchTokens(value, toks) == MatchError {
      FirstDecider(value, toks);
    }
  }

  /** A range of two numbers holding `value` answers `True`. */
  lemma RangeHit(value: int, lo: string, hi: string)
    requires IsNumeric(lo) && IsNumeric(hi) && DigitsValue(lo) <= value <= DigitsValue(hi)
    ensures RangeMatches(value, lo + "-" + hi) == Matches
  {
    RangeToken(lo, hi);
  }

  /** A range of two numbers not holding `value`, and nothing after it, answers `None`. */
  lemma RangeMiss(value: int, lo: string, hi: string)
    requires IsNumeric(lo) && IsNumeric(hi) && !(DigitsValue(lo) <= value <= DigitsValue(hi))
    ensures RangeMatches(value, lo + "-" + hi) == NoMatch
  {
    var t := lo + "-" + hi;
    RangeToken(lo, hi);
    assert TokenStep(value, t) == NoMatch;
    assert [t][1..] == [];
    assert MatchTokens(value, [t]) == MatchTokens(value, []);
  }

  /** Two dash-free halves joined by a dash split back into those halves. */
  lemma DashJoinSplits(lo: string, hi: string)
    requires '-' !in lo && '-' !in hi
    ensures Split(lo + "-" + hi, '-') == [lo, hi]
  {
    var t := lo + "-" + hi;
    assert t[..|lo|] == lo && t[|lo| + 1..] == hi;
    SplitFirst(t, '-', |lo|);
    SplitNoSep(hi, '-');
  }

  /** Two numbers joined by a dash make one token, its own strip. */
  lemma DashJoinToken(lo: string, hi: string)
    requires IsNumeric(lo) && IsNumeric(hi)
    ensures Tokens(lo + "-" + hi) == [lo + "-" + hi]
  {
    var t := lo + "-" + hi;
    NumericPlain(lo);
    NumericPlain(hi);
    assert ',' !in t;
    TokensSingle(t);
    assert t[0] == lo[0] && t[|t| - 1] == hi[|hi| - 1];
    StripNoSpace(t);
  }

  /** The one token of `lo + "-" + hi` for two numbers. */
  lemma RangeToken(lo: string, hi: string)
    requires IsNumeric(lo) && IsNumeric(hi)
    ensures Tokens(lo + "-" + hi) == [lo + "-" + hi]
    ensures IsRangeToken(lo + "-" + hi) && HasTwoHalves(lo + "-" + hi)
    ensures Low(lo + "-" + hi) == lo && High(lo + "-" + hi) == hi
    ensures IsIntLiteral(lo) && IntValue(lo) == DigitsValue(lo)
    ensures IsIntLiteral(hi) && IntValue(hi) == DigitsValue(hi)
  {
    var t := lo + "-" + hi;
    DashJoinToken(lo, hi);
    NumericPlain(lo);
    NumericPlain(hi);
    DashJoinSplits(lo, hi);
    assert t[|lo|] == '-';
    NumericIsIntLiteral(lo);
    NumericIsIntLiteral(hi);
  }

  /** A bare number never answers `True`, even when it is the value itself. */
  lemma NumberNeverMatches(value: int, n: string)
    requires IsNumeric(n)
    ensures RangeMatches(value, n) == NoMatch
  {
    assert ',' !in n && '-' !in n;
    TokensSingle(n);
    StripNoSpace(n);
    assert !IsAnyToken(n) by { assert Lower(n)[0] == n[0]; }
    assert !IsRangeToken(n);
    assert TokenStep(value, n) == NoMatch;
    assert [n][1..] == [];
    assert MatchTokens(value, [n]) == MatchTokens(value, []);
  }

  /** The matcher on the inputs of the sync step's tests. */
  lemma RangeMatchesInRange()
    ensures RangeMatches(123, "122" + "-" + "124") == Matches
  {
    assert DigitsValue("122") == 122 && DigitsValue("124") == 124 by {
      assert "122"[..2] == "12" && "124"[..2] == "12" && "12"[..1] == "1" && "1"[..0] == "";
    }
    RangeHit(123, "122", "124");
  }

  lemma RangeMatchesOutOfRange()
    ensures RangeMatches(123, "110" + "-" + "113") == NoMatch
  {
    assert DigitsValue("110") == 110 && DigitsValue("113") == 113 by {
      assert "110"[..2] == "11" && "113"[..2] == "11" && "11"[..1] == "1" && "1"[..0] == "";
    }
    RangeMiss(123, "110", "113");
  }

  lemma RangeMatchesSingle()
    ensures RangeMatches(123, "123") == NoMatch
  {
    NumberNeverMatches(123, "123");
  }

  lemma RangeMatchesAny()
    ensures RangeMatches(123, "ANY") == AnyToken
    ensures RangeMatches(123, "any") == AnyToken
  {
    AnyAnswers(123, "ANY");
    AnyAnswers(123, "any");
  }

  /** "any" in any mix of cases, alone, answers `False` for every value. */
  lemma AnyAnswers(value: int, w: string)
    requires |w| == 3 && LowerChar(w[0]) == 'a' && LowerChar(w[1]) == 'n' && LowerChar(w[2]) == 'y'
    ensures RangeMatches(value, w) == AnyToken
  {
    assert ',' !in w && '-' !in w;
    TokensSingle(w);
    StripNoSpace(w);
    assert Lower(w) == "any";
  }
}
