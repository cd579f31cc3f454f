/** The s-tag specification of a BNG port mapping is a comma-separated list of
    tokens; both the validator and the matcher walk the tokens the same way:
    split on ',' (empty pieces kept) and strip each piece. */
module TagSpec {
  import opened PyString

  /** Each piece, stripped. */
  function StripEach(pieces: seq<string>): seq<string> {
    if |pieces| == 0 then [] else [Strip(pieces[0])] + StripEach(pieces[1..])
  }

  /** The stripped comma-separated tokens of `pattern`, in order. */
  function Tokens(pattern: string): seq<string> {
    StripEach(Split(pattern, ','))
  }

  /** One token per comma-separated piece, each the stripped piece. */
  lemma {:induction false} StripEachSpec(pieces: seq<string>)
    ensures |StripEach(pieces)| == |pieces|
    ensures forall i :: 0 <= i < |pieces| ==> StripEach(pieces)[i] == Strip(pieces[i])
  {
    if |pieces| > 0 {
      StripEachSpec(pieces[1..]);
    }
  }

  /** A pattern without a comma is a single token. */
  lemma TokensSingle(pattern: string)
    requires ',' !in pattern
    ensures Tokens(pattern) == [Strip(pattern)]
  {
    SplitNoSep(pattern, ',');
  }

  /** The first token runs up to the first comma. */
  lemma TokensFirst(a: string, b: string)
    requires ',' !in a
    ensures Tokens(a + [','] + b) == [Strip(a)] + Tokens(b)
  {
    var p := a + [','] + b;
    assert p[..|a|] == a && p[|a| + 1..] == b;
    SplitFirst(p, ',', |a|);
  }

  /** A token the code treats as a range: it contains a '-'. */
  predicate IsRangeToken(tok: string) {
    '-' in tok
  }

  /** A token equal to "any", ignoring case. */
  predicate IsAnyToken(tok: string) {
    Lower(tok) == "any"
  }

  /** The two stripped halves of a range token, when `tok.split("-")` has exactly two pieces. */
  predicate HasTwoHalves(tok: string) {
    |Split(tok, '-')| == 2
  }

  function Low(tok: string): string
    requires HasTwoHalves(tok)
  {
    Strip(Split(tok, '-')[0])
  }

  function High(tok: string): string
    requires HasTwoHalves(tok)
  {
    Strip(Split(tok, '-')[1])
  }

  /** Exactly one '-' is what the two-way unpack of `tok.split("-")` needs. */
  lemma TwoHalvesIffOneDash(tok: string)
    ensures HasTwoHalves(tok) <==> Count(tok, '-') == 1
  {
    SplitLength(tok, '-');
  }
}
