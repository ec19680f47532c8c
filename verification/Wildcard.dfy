/** The wildcard matcher of host key patterns (providers/shared/transport/hostkeys.go). */
module Wildcard {

  /** What the matcher computes: a '*' tries every non-empty rest of the value, and ends the search at the end. */
  predicate Wild(pattern: string, value: string)
    decreases |pattern|
  {
    if pattern == [] then value == []
    else if value == [] then false
    else if pattern[0] == '*' then
      |pattern| == 1 || exists k :: 0 <= k < |value| && Wild(pattern[1..], value[k..])
    else (pattern[0] == '?' || pattern[0] == value[0]) && Wild(pattern[1..], value[1..])
  }

  /** The loop walks both texts and recurses at a '*'. */
  method WildcardMatch(pattern: string, value: string) returns (matched: bool)
    ensures matched <==> Wild(pattern, value)
    decreases |pattern|
  {
    var p, v := pattern, value;
    while true
      invariant |p| <= |pattern| && (Wild(p, v) <==> Wild(pattern, value))
      decreases |p|
    {
      if p == [] {
        return v == [];
      }
      if v == [] {
        return false;
      }
      if p[0] == '*' {
        if |p| == 1 {
          return true;
        }
        for index := 0 to |v|
          invariant forall k :: 0 <= k < index ==> !Wild(p[1..], v[k..])
        {
          var found := WildcardMatch(p[1..], v[index..]);
          if found {
            return true;
          }
        }
        return false;
      } else if p[0] == '?' {
        p, v := p[1..], v[1..];
      } else {
        if p[0] != v[0] {
          return false;
        }
        p, v := p[1..], v[1..];
      }
    }
  }

  /** The glob relation: the value is cut into one piece per pattern character, any run for '*', one character for '?',
      the character itself for any other. */
  predicate PieceFits(c: char, piece: string) {
    c == '*' || (|piece| == 1 && (c == '?' || piece[0] == c))
  }

  function Concat(pieces: seq<string>): string {
    if pieces == [] then "" else pieces[0] + Concat(pieces[1..])
  }

  ghost predicate Glob(pattern: string, value: string) {
    exists pieces: seq<string> :: Cuts(pattern, pieces) && Concat(pieces) == value
  }

  predicate Cuts(pattern: string, pieces: seq<string>) {
    |pieces| == |pattern| && forall i :: 0 <= i < |pieces| ==> PieceFits(pattern[i], pieces[i])
  }

  /** A '*' that ends the pattern asks for one character at least. */
  function FinalStarTakesOne(pattern: string): string {
    if pattern != [] && pattern[|pattern| - 1] == '*' then pattern[..|pattern| - 1] + "?*" else pattern
  }

  lemma {:induction false} WildIsGlob(pattern: string, value: string)
    requires Wild(pattern, value)
    ensures Glob(FinalStarTakesOne(pattern), value)
  {
    hide Glob, FinalStarTakesOne;
    if pattern == [] {
      EmptyGlob();
      FinalStars();
    } else if pattern == "*" {
      StarGlob(value);
      FinalStars();
    } else {
      var k := PieceLength(pattern, value);
      WildIsGlob(pattern[1..], value[k..]);
      FrontStays(pattern);
      Compose(pattern[0], FinalStarTakesOne(pattern[1..]), value[..k], value[k..]);
      assert value == value[..k] + value[k..];
    }
  }

  /** How much of the value the first pattern character takes. */
  lemma PieceLength(pattern: string, value: string) returns (k: nat)
    requires Wild(pattern, value) && pattern != [] && pattern != "*"
    ensures k <= |value| && PieceFits(pattern[0], value[..k]) && Wild(pattern[1..], value[k..])
  {
    k := 1;
    if pattern[0] == '*' {
      k :| 0 <= k < |value| && Wild(pattern[1..], value[k..]);
    }
  }

  lemma FinalStars()
    ensures FinalStarTakesOne("") == "" && FinalStarTakesOne("*") == "?*"
  {}

  lemma EmptyGlob()
    ensures Glob("", "")
  {
    assert Cuts("", []) && Concat([]) == "";
  }

  lemma StarGlob(value: string)
    requires value != []
    ensures Glob("?*", value)
  {
    EmptyGlob();
    Compose('*', "", value[1..], "");
    Compose('?', "*", value[..1], value[1..]);
    assert ['*'] + "" == "*" && ['?'] + "*" == "?*";
    assert value[1..] + "" == value[1..] && value == value[..1] + value[1..];
  }

  lemma Compose(c: char, rest: string, piece: string, value: string)
    requires PieceFits(c, piece) && Glob(rest, value)
    ensures Glob([c] + rest, piece + value)
  {
    var pieces :| Cuts(rest, pieces) && Concat(pieces) == value;
    var all := [piece] + pieces;
    assert all[1..] == pieces;
    assert Cuts([c] + rest, all) && Concat(all) == piece + value;
  }

  lemma FrontStays(pattern: string)
    requires pattern != [] && pattern != "*"
    ensures FinalStarTakesOne(pattern) == [pattern[0]] + FinalStarTakesOne(pattern[1..])
  {
    var tail := pattern[1..];
    if tail != [] {
      assert pattern[..|pattern| - 1] == [pattern[0]] + tail[..|tail| - 1];
    }
  }

  /** Pieces of a pattern that is not empty hold a character when it ends as the matcher wants it. */
  lemma {:induction false} GlobIsWild(pattern: string, value: string, pieces: seq<string>)
    requires Cuts(FinalStarTakesOne(pattern), pieces) && Concat(pieces) == value
    ensures Wild(pattern, value)
    ensures pattern != [] ==> value != []
    decreases |pattern|
  {
    if pattern == [] {
    } else {
      assert value == pieces[0] + Concat(pieces[1..]);
      if pattern == "*" {
        assert pieces[0] != "" && Concat(pieces)[0] == pieces[0][0];
      } else {
        FrontStays(pattern);
        var rest := Concat(pieces[1..]);
        GlobIsWild(pattern[1..], rest, pieces[1..]);
        assert value[|pieces[0]|..] == rest;
      }
    }
  }

  /** The matcher decides exactly the glob relation in which a final '*' reads as '?*'. */
  lemma WildcardMatchesTheGlob(pattern: string, value: string)
    ensures Wild(pattern, value) <==> Glob(FinalStarTakesOne(pattern), value)
  {
    if Wild(pattern, value) { WildIsGlob(pattern, value); }
    if Glob(FinalStarTakesOne(pattern), value) {
      var pieces :| Cuts(FinalStarTakesOne(pattern), pieces) && Concat(pieces) == value;
      GlobIsWild(pattern, value, pieces);
    }
  }
}
