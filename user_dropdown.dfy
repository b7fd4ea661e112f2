/** components/auth/user-dropdown.tsx: the avatar fallback
    `user.name.split(" ").map((n) => n[0]).join("").toUpperCase()`. */
module UserDropdown {

  function SpaceCount(s: string): nat {
    if |s| == 0 then 0 else (if s[0] == ' ' then 1 else 0) + SpaceCount(s[1..])
  }

  /** `pieces.join(" ")`: the first piece, then every other piece after a space. */
  function JoinSpaces(pieces: seq<string>): string {
    if |pieces| == 0 then "" else pieces[0] + SpaceEach(pieces[1..])
  }

  /** Each piece with a space in front of it. */
  function SpaceEach(pieces: seq<string>): string {
    if |pieces| == 0 then "" else " " + pieces[0] + SpaceEach(pieces[1..])
  }

  /** `s.split(" ")`: the pieces between single spaces, empty ones included;
      there is always one piece more than there are spaces, and no piece
      holds a space. */
  function SplitSpaces(s: string): (pieces: seq<string>)
    ensures |pieces| == SpaceCount(s) + 1
    ensures forall i :: 0 <= i < |pieces| ==> ' ' !in pieces[i]
  {
    if |s| == 0 then [""]
    else
      var rest := SplitSpaces(s[1..]);
      if s[0] == ' ' then [""] + rest
      else
        assert forall i :: 1 <= i < |rest| ==> ([[s[0]] + rest[0]] + rest[1..])[i] == rest[i];
        [[s[0]] + rest[0]] + rest[1..]
  }

  /** Joining the pieces with single spaces gives back the name, so (with no
      space inside a piece) the split is the only one possible. */
  lemma {:induction false} SplitJoin(s: string)
    ensures JoinSpaces(SplitSpaces(s)) == s
  {
    if |s| > 0 {
      SplitJoin(s[1..]);
      var rest := SplitSpaces(s[1..]);
      var tail := SpaceEach(rest[1..]);
      assert JoinSpaces(rest) == rest[0] + tail;
      if s[0] == ' ' {
        assert ([""] + rest)[1..] == rest;
        assert SpaceEach(rest) == " " + rest[0] + tail;
        assert s == [' '] + s[1..];
      } else {
        assert ([[s[0]] + rest[0]] + rest[1..])[1..] == rest[1..];
        assert [s[0]] + rest[0] + tail == [s[0]] + (rest[0] + tail);
        assert s == [s[0]] + s[1..];
      }
    }
  }

  /** `.map((n) => n[0]).join("")`: the first character of every piece; an
      empty piece gives `undefined`, which `join` writes as nothing. */
  function Heads(pieces: seq<string>): (r: string)
    ensures |r| <= |pieces|
    ensures forall i :: 0 <= i < |r| ==> exists j :: 0 <= j < |pieces| && |pieces[j]| > 0 && r[i] == pieces[j][0]
  {
    if |pieces| == 0 then ""
    else
      var rest := Heads(pieces[1..]);
      assert forall j :: 1 <= j < |pieces| ==> pieces[j] == pieces[1..][j - 1];
      (if |pieces[0]| > 0 then [pieces[0][0]] else "") + rest
  }

  /** Taking the heads of two lists of pieces one after the other is taking
      the heads of the whole list: each piece contributes on its own, in order. */
  lemma {:induction false} HeadsAppend(p: seq<string>, q: seq<string>)
    ensures Heads(p + q) == Heads(p) + Heads(q)
  {
    if |p| == 0 {
      assert p + q == q;
    } else {
      assert (p + q)[1..] == p[1..] + q;
      HeadsAppend(p[1..], q);
    }
  }

  /** One piece contributes its first character, or nothing when it is empty. */
  lemma HeadsOfOne(w: string)
    ensures Heads([w]) == if |w| > 0 then [w[0]] else ""
  {
    assert [w][1..] == [];
  }

  /** `toUpperCase()` on one character, for the Latin letters. */
  function UpperChar(c: char): (u: char)
    ensures 'a' <= c <= 'z' ==> 'A' <= u <= 'Z' && u as int == c as int - 32
    ensures !('a' <= c <= 'z') ==> u == c
  {
    if 'a' <= c <= 'z' then (c as int - 32) as char else c
  }

  function ToUpper(s: string): (u: string)
    ensures |u| == |s|
    ensures forall i :: 0 <= i < |s| ==> u[i] == UpperChar(s[i])
  {
    seq(|s|, i requires 0 <= i < |s| => UpperChar(s[i]))
  }

  /** The avatar initials: the upper-cased characters that start a word of
      the name. */
  function Initials(name: string): (r: string)
    ensures r == ToUpper(WordStarts(name, true))
  {
    HeadsAreWordStarts(name);
    ToUpper(Heads(SplitSpaces(name)))
  }

  /** A second description of the same thing: the characters of `s` that are
      not spaces and start `s` or follow a space, in order. */
  function WordStarts(s: string, atStart: bool): string {
    if |s| == 0 then ""
    else if s[0] == ' ' then WordStarts(s[1..], true)
    else (if atStart then [s[0]] else "") + WordStarts(s[1..], false)
  }

  /** Splitting and taking the heads picks out exactly the word starts. */
  lemma {:induction false} HeadsAreWordStarts(s: string)
    ensures Heads(SplitSpaces(s)) == WordStarts(s, true)
    ensures Heads(SplitSpaces(s)[1..]) == WordStarts(s, false)
  {
    if |s| > 0 {
      HeadsAreWordStarts(s[1..]);
      var rest := SplitSpaces(s[1..]);
      if s[0] == ' ' {
        assert SplitSpaces(s) == [""] + rest;
        assert SplitSpaces(s)[1..] == rest;
      } else {
        var pieces := SplitSpaces(s);
        assert pieces == [[s[0]] + rest[0]] + rest[1..];
        assert pieces[1..] == rest[1..];
        assert pieces[0][0] == s[0];
      }
    }
  }

  /** The word starts never include a space, and there are at most as many of
      them as words: one more than the spaces when counting from a word
      start, no more than the spaces otherwise. */
  lemma {:induction false} WordStartsBounds(s: string, atStart: bool)
    ensures ' ' !in WordStarts(s, atStart)
    ensures |WordStarts(s, atStart)| <= SpaceCount(s) + (if atStart then 1 else 0)
  {
    if |s| > 0 {
      WordStartsBounds(s[1..], s[0] == ' ');
      if s[0] != ' ' {
        WordStartsBounds(s[1..], false);
      }
    }
  }

  /** Leading, trailing and repeated spaces add nothing: the initials contain
      no space, and there are at most one more of them than spaces in the name. */
  lemma InitialsBounds(name: string)
    ensures ' ' !in Initials(name)
    ensures |Initials(name)| <= SpaceCount(name) + 1
  {
    HeadsAreWordStarts(name);
    WordStartsBounds(name, true);
    var heads := Heads(SplitSpaces(name));
    forall i | 0 <= i < |heads| ensures Initials(name)[i] != ' ' {
      assert heads[i] != ' ';
    }
  }

  /** The word starts of the demo account's name. */
  lemma DemoUserWordStarts()
    ensures WordStarts("Demo User", true) == "DU"
  {
    assert WordStarts("", false) == "";
    assert WordStarts("r", false) == "";
    assert WordStarts("er", false) == "";
    assert WordStarts("ser", false) == "";
    assert WordStarts("User", true) == "U";
    assert WordStarts(" User", false) == "U";
    assert WordStarts("o User", false) == "U";
    assert WordStarts("mo User", false) == "U";
    assert WordStarts("emo User", false) == "U";
  }

  /** The demo account's name gives "DU". */
  lemma DemoUserInitials()
    ensures Initials("Demo User") == "DU"
  {
    DemoUserWordStarts();
    var u := ToUpper("DU");
    assert u[0] == UpperChar('D') == 'D' && u[1] == UpperChar('U') == 'U';
    assert u == "DU";
  }
}
