// The comment stripper behind the architecture scan, an index-jumping loop, against
// a three-mode scanner that reads one position at a time.
module Comments {
  import opened Prelude

  const SLASH: byte := 47
  const STAR: byte := 42
  const NEWLINE: byte := 10

  // --- The reference scanner ---

  datatype Mode = Code | Line | Block

  predicate Opens(s: Bytes, second: byte) { |s| >= 2 && s[0] == SLASH && s[1] == second }

  predicate Closes(s: Bytes) { |s| >= 2 && s[0] == STAR && s[1] == SLASH }

  // A line comment ends before its newline, a block comment after its closing mark;
  // an unterminated comment swallows the rest.
  function Scan(mode: Mode, s: Bytes): Bytes
    decreases |s|
  {
    if s == [] then []
    else
      match mode
      case Code =>
        if Opens(s, STAR) then Scan(Block, s[2..])
        else if Opens(s, SLASH) then Scan(Line, s[2..])
        else [s[0]] + Scan(Code, s[1..])
      case Line =>
        if s[0] == NEWLINE then [NEWLINE] + Scan(Code, s[1..]) else Scan(Line, s[1..])
      case Block =>
        if Closes(s) then Scan(Code, s[2..]) else Scan(Block, s[1..])
  }

  // --- The index-jumping loop ---

  // strings.Index(s, "*/")
  function IndexOfClose(s: Bytes): (r: Option<nat>)
    ensures r.Some? ==> r.value < |s| && Closes(s[r.value..])
  {
    if s == [] then None
    else if Closes(s) then Some(0)
    else
      match IndexOfClose(s[1..])
      case None => None
      case Some(i) => assert s[1..][i..] == s[i + 1..]; Some(i + 1)
  }

  // strings.IndexByte
  function IndexOfByte(s: Bytes, c: byte): (r: Option<nat>)
    ensures r.Some? ==> r.value < |s| && s[r.value] == c
  {
    if s == [] then None
    else if s[0] == c then Some(0)
    else
      match IndexOfByte(s[1..], c)
      case None => None
      case Some(i) => Some(i + 1)
  }

  // Jumping to the closing mark is what block mode does step by step.
  lemma {:induction false} BlockJump(s: Bytes)
    ensures IndexOfClose(s).None? ==> Scan(Block, s) == []
    ensures IndexOfClose(s).Some? ==>
              IndexOfClose(s).value + 2 <= |s| && Scan(Block, s) == Scan(Code, s[IndexOfClose(s).value + 2..])
  {
    if s != [] && !Closes(s) {
      BlockJump(s[1..]);
      if IndexOfClose(s[1..]).Some? {
        assert s[1..][IndexOfClose(s[1..]).value + 2..] == s[IndexOfClose(s).value + 2..];
      }
    }
  }

  // Jumping to the newline is what line mode does step by step.
  lemma {:induction false} LineJump(s: Bytes)
    ensures IndexOfByte(s, NEWLINE).None? ==> Scan(Line, s) == []
    ensures IndexOfByte(s, NEWLINE).Some? ==>
              Scan(Line, s) == [NEWLINE] + Scan(Code, s[IndexOfByte(s, NEWLINE).value + 1..])
  {
    if s != [] && s[0] != NEWLINE {
      LineJump(s[1..]);
      if IndexOfByte(s[1..], NEWLINE).Some? {
        assert s[1..][IndexOfByte(s[1..], NEWLINE).value + 1..] == s[IndexOfByte(s, NEWLINE).value + 1..];
      }
    }
  }

  // Searching the newline from the opening mark or from behind it is the same.
  lemma TwoSlashes(s: Bytes)
    requires Opens(s, SLASH)
    ensures Scan(Line, s) == Scan(Line, s[2..])
  {
  }

  // The loop at position i: what is written so far, and what the rest will add.
  ghost predicate Reached(src: Bytes, i: nat, b: Bytes) {
    i <= |src| && b + Scan(Code, src[i..]) == Scan(Code, src)
  }

  // One turn of the loop, case by case.
  lemma BlockTurn(src: Bytes, i: nat, b: Bytes)
    requires Reached(src, i, b) && Opens(src[i..], STAR)
    ensures var end := IndexOfClose(src[i + 2..]);
            if end.None? then b == Scan(Code, src) else Reached(src, i + end.value + 4, b)
  {
    BlockJump(src[i + 2..]);
    assert src[i..][2..] == src[i + 2..];
    var end := IndexOfClose(src[i + 2..]);
    if end.Some? {
      assert src[i + 2..][end.value + 2..] == src[i + end.value + 4..];
    }
  }

  lemma LineTurn(src: Bytes, i: nat, b: Bytes)
    requires Reached(src, i, b) && Opens(src[i..], SLASH)
    ensures var nl := IndexOfByte(src[i..], NEWLINE);
            if nl.None? then b == Scan(Code, src) else Reached(src, i + nl.value + 1, b + [NEWLINE])
  {
    LineJump(src[i..]);
    TwoSlashes(src[i..]);
    var nl := IndexOfByte(src[i..], NEWLINE);
    if nl.Some? {
      assert src[i..][nl.value + 1..] == src[i + nl.value + 1..];
      var rest := Scan(Code, src[i + nl.value + 1..]);
      assert b + ([NEWLINE] + rest) == (b + [NEWLINE]) + rest;
    }
  }

  lemma CodeTurn(src: Bytes, i: nat, b: Bytes)
    requires i < |src| && Reached(src, i, b) && !Opens(src[i..], SLASH) && !Opens(src[i..], STAR)
    ensures Reached(src, i + 1, b + [src[i]])
  {
  }

  lemma LoopEnds(src: Bytes, b: Bytes)
    requires Reached(src, |src|, b)
    ensures b == Scan(Code, src)
  {
  }

  lemma LoopStarts(src: Bytes)
    ensures Reached(src, 0, [])
  {
  }

  method StripComments(src: Bytes) returns (b: Bytes)
    ensures b == Scan(Code, src)
  {
    b := [];
    var i := 0;
    LoopStarts(src);
    while i < |src|
      invariant Reached(src, i, b)
    {
      if i + 1 < |src| && src[i] == SLASH && src[i + 1] == STAR {
        BlockTurn(src, i, b);
        var end := IndexOfClose(src[i + 2..]);
        if end.None? {
          return;
        }
        i := i + end.value + 3;
        i := i + 1;
        continue;
      }
      if i + 1 < |src| && src[i] == SLASH && src[i + 1] == SLASH {
        LineTurn(src, i, b);
        var nl := IndexOfByte(src[i..], NEWLINE);
        if nl.None? {
          return;
        }
        i := i + nl.value;
        b := b + [NEWLINE];
        i := i + 1;
        continue;
      }
      CodeTurn(src, i, b);
      b := b + [src[i]];
      i := i + 1;
    }
    LoopEnds(src, b);
  }

  // --- What stripping guarantees ---

  // No comment opens anywhere.
  predicate NoMarks(s: Bytes) {
    forall i :: 0 <= i < |s| - 1 && s[i] == SLASH ==> s[i + 1] != SLASH && s[i + 1] != STAR
  }

  // A text in order, with some bytes left out.
  predicate Subsequence(a: Bytes, b: Bytes) {
    a == [] || (b != [] && ((a[0] == b[0] && Subsequence(a[1..], b[1..])) || Subsequence(a, b[1..])))
  }

  lemma {:induction false} ScanIsClean(mode: Mode, s: Bytes)
    ensures NoMarks(Scan(mode, s))
    decreases |s|
  {
    if s != [] {
      match mode
      case Code =>
        if Opens(s, STAR) {
          ScanIsClean(Block, s[2..]);
        } else if Opens(s, SLASH) {
          ScanIsClean(Line, s[2..]);
        } else {
          ScanIsClean(Code, s[1..]);
          if s[0] == SLASH && |s| >= 2 {
            assert Scan(Code, s[1..])[0] == s[1];
          }
        }
      case Line =>
        ScanIsClean(if s[0] == NEWLINE then Code else Line, s[1..]);
      case Block =>
        if Closes(s) { ScanIsClean(Code, s[2..]); } else { ScanIsClean(Block, s[1..]); }
    }
  }

  lemma {:induction false} ScanIsSubsequence(mode: Mode, s: Bytes)
    ensures Subsequence(Scan(mode, s), s)
    decreases |s|
  {
    if s != [] {
      match mode
      case Code =>
        if Opens(s, STAR) {
          ScanIsSubsequence(Block, s[2..]);
          assert s[1..][1..] == s[2..];
        } else if Opens(s, SLASH) {
          ScanIsSubsequence(Line, s[2..]);
          assert s[1..][1..] == s[2..];
        } else {
          ScanIsSubsequence(Code, s[1..]);
          assert Scan(Code, s)[1..] == Scan(Code, s[1..]);
        }
      case Line =>
        if s[0] == NEWLINE {
          ScanIsSubsequence(Code, s[1..]);
          assert Scan(Line, s)[1..] == Scan(Code, s[1..]);
        } else {
          ScanIsSubsequence(Line, s[1..]);
        }
      case Block =>
        if Closes(s) {
          ScanIsSubsequence(Code, s[2..]);
          assert s[1..][1..] == s[2..];
        } else {
          ScanIsSubsequence(Block, s[1..]);
        }
    }
  }

  lemma {:induction false} CleanIsKept(s: Bytes)
    requires NoMarks(s)
    ensures Scan(Code, s) == s
  {
    if s != [] {
      assert NoMarks(s[1..]) by {
        forall i | 0 <= i < |s[1..]| - 1 && s[1..][i] == SLASH
          ensures s[1..][i + 1] != SLASH && s[1..][i + 1] != STAR
        {
          assert s[i + 1] == SLASH;
        }
      }
      CleanIsKept(s[1..]);
    }
  }

  // Main theorem, for every source text: the result is the source with bytes left
  // out, it contains neither comment mark, stripping it again changes nothing, and
  // stripping leaves a text alone exactly when it contains no mark.
  lemma StrippingIsSound(src: Bytes)
    ensures var out := Scan(Code, src);
            && Subsequence(out, src) && NoMarks(out) && Scan(Code, out) == out
            && (out == src <==> NoMarks(src))
  {
    ScanIsSubsequence(Code, src);
    ScanIsClean(Code, src);
    CleanIsKept(Scan(Code, src));
    if NoMarks(src) {
      CleanIsKept(src);
    }
  }

  // Code in front of anything survives unchanged.
  lemma {:induction false} CodeSurvives(code: Bytes, rest: Bytes)
    requires NoMarks(code) && (code == [] || code[|code| - 1] != SLASH)
    ensures Scan(Code, code + rest) == code + Scan(Code, rest)
  {
    if code == [] {
      assert code + rest == rest;
    } else {
      var s := code + rest;
      assert s[1..] == code[1..] + rest;
      assert NoMarks(code[1..]) by {
        forall i | 0 <= i < |code[1..]| - 1 && code[1..][i] == SLASH
          ensures code[1..][i + 1] != SLASH && code[1..][i + 1] != STAR
        {
          assert code[i + 1] == SLASH;
        }
      }
      CodeSurvives(code[1..], rest);
      if s[0] == SLASH {
        assert s[1] == code[1];
      }
    }
  }

  const CLOSE: Bytes := [STAR, SLASH]

  lemma {:induction false} BlockBody(body: Bytes, rest: Bytes)
    requires forall i :: 0 <= i < |body| ==> !Closes((body + CLOSE)[i..])
    ensures Scan(Block, body + CLOSE + rest) == Scan(Code, rest)
  {
    var s := body + CLOSE + rest;
    if body == [] {
      assert s[2..] == rest;
    } else {
      assert !Closes((body + CLOSE)[0..]);
      assert s[0] == (body + CLOSE)[0] && s[1] == (body + CLOSE)[1];
      assert s[1..] == body[1..] + CLOSE + rest;
      forall i | 0 <= i < |body[1..]|
        ensures !Closes((body[1..] + CLOSE)[i..])
      {
        assert (body[1..] + CLOSE)[i..] == (body + CLOSE)[i + 1..];
      }
      BlockBody(body[1..], rest);
    }
  }

  lemma {:induction false} LineBody(body: Bytes, rest: Bytes)
    requires NEWLINE !in body
    ensures Scan(Line, body + [NEWLINE] + rest) == [NEWLINE] + Scan(Code, rest)
  {
    var s := body + [NEWLINE] + rest;
    if body == [] {
      assert s[1..] == rest;
    } else {
      assert body[0] in body;
      assert s[1..] == body[1..] + [NEWLINE] + rest;
      LineBody(body[1..], rest);
    }
  }

  // A block comment vanishes whole, up to its first closing mark; a line comment up
  // to, but without, its newline. Scanning resumes in code behind them.
  lemma CommentsVanish(body: Bytes, rest: Bytes)
    ensures (forall i :: 0 <= i < |body| ==> !Closes((body + CLOSE)[i..])) ==>
              Scan(Code, [SLASH, STAR] + (body + CLOSE + rest)) == Scan(Code, rest)
    ensures NEWLINE !in body ==>
              Scan(Code, [SLASH, SLASH] + (body + [NEWLINE] + rest)) == [NEWLINE] + Scan(Code, rest)
  {
    assert ([SLASH, STAR] + (body + CLOSE + rest))[2..] == body + CLOSE + rest;
    assert ([SLASH, SLASH] + (body + [NEWLINE] + rest))[2..] == body + [NEWLINE] + rest;
    if forall i :: 0 <= i < |body| ==> !Closes((body + CLOSE)[i..]) {
      BlockBody(body, rest);
    }
    if NEWLINE !in body {
      LineBody(body, rest);
    }
  }
}
