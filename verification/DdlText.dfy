/**
 The DDL splitter and printer: matching parentheses, splitting a CREATE TABLE body
 at its top-level commas and printing it one part to a line, and splitting ALTER
 TABLE text into clauses. Text is treated as ASCII.
 */
module DdlText {
  // ---------------------------------------------------------------- nesting

  function Step(c: char): int {
    if c == '(' then 1 else if c == ')' then -1 else 0
  }

  /** Opening minus closing parentheses. */
  function Depth(s: string): int {
    if s == "" then 0 else Depth(s[..|s| - 1]) + Step(s[|s| - 1])
  }

  lemma DepthNext(s: string, i: nat, j: nat)
    requires i <= j < |s|
    ensures Depth(s[i..j + 1]) == Depth(s[i..j]) + Step(s[j])
  {
    assert s[i..j + 1][..j - i] == s[i..j];
  }

  /** From depth d the text never goes below zero and ends at zero. */
  predicate Closes(s: string, d: int) {
    d >= 0 && if s == "" then d == 0 else Closes(s[1..], d + Step(s[0]))
  }

  /** From depth d no comma sits at depth zero. */
  predicate NoTopComma(s: string, d: int) {
    s == "" || (!(s[0] == ',' && d == 0) && NoTopComma(s[1..], d + Step(s[0])))
  }

  /** The closing parenthesis that brings the depth opened at `open` back to zero, or -1. */
  method FindMatchingParen(s: string, open: nat) returns (r: int)
    requires open <= |s|
    ensures r == -1 || open <= r < |s|
    ensures r == -1 <==> forall k | open <= k < |s| :: !Returns(s, open, k)
    ensures r != -1 ==> Returns(s, open, r) && forall k | open <= k < r :: !Returns(s, open, k)
  {
    var depth := 0;
    for i := open to |s|
      invariant depth == Depth(s[open..i])
      invariant forall k | open <= k < i :: !Returns(s, open, k)
    {
      DepthNext(s, open, i);
      if s[i] == '(' {
        depth := depth + 1;
      } else if s[i] == ')' {
        depth := depth - 1;
        if depth == 0 {
          assert Returns(s, open, i);
          return i;
        }
      }
    }
    r := -1;
  }

  predicate Returns(s: string, open: nat, k: nat)
    requires open <= k < |s|
  {
    s[k] == ')' && Depth(s[open..k + 1]) == 0
  }

  /** Between a parenthesis and its match the text is balanced. */
  lemma MatchedBody(s: string, open: nat, close: nat)
    requires open < close < |s| && s[open] == '(' && Returns(s, open, close)
    requires forall k | open <= k < close :: !Returns(s, open, k)
    ensures Closes(s[open + 1..close], 0)
  {
    DepthNext(s, open, open);
    MatchedFrom(s, open, close, open + 1);
  }

  lemma {:induction false} MatchedFrom(s: string, open: nat, close: nat, i: nat)
    requires open < i <= close < |s| && Returns(s, open, close) && Depth(s[open..i]) >= 1
    requires forall k | open <= k < close :: !Returns(s, open, k)
    ensures Closes(s[i..close], Depth(s[open..i]) - 1)
    decreases close - i
  {
    DepthNext(s, open, i);
    if i < close {
      assert !Returns(s, open, i);
      MatchedFrom(s, open, close, i + 1);
      assert s[i..close][1..] == s[i + 1..close];
    } else {
      assert s[i..close] == "";
    }
  }

  /** And a balanced body is found again, whatever surrounds it. */
  lemma BodyIsMatched(s: string, open: nat, body: string, k: nat)
    requires open + 1 + |body| < |s| && s[open] == '(' && s[open + 1..open + 1 + |body|] == body
    requires Closes(body, 0) && s[open + 1 + |body|] == ')' && open <= k <= open + 1 + |body|
    ensures Returns(s, open, k) <==> k == open + 1 + |body|
  {
    if k > open {
      MatchAt(s, body, open, k - open - 1);
    }
  }

  lemma MatchAt(s: string, body: string, open: nat, n: nat)
    requires n <= |body| && open + 1 + |body| < |s| && s[open] == '(' && s[open + 1..open + 1 + |body|] == body
    requires Closes(body, 0) && s[open + 1 + |body|] == ')'
    ensures Returns(s, open, open + 1 + n) <==> n == |body|
  {
    DepthInside(s, body, open, n);
    DepthNext(s, open, open + 1 + n);
    if n < |body| {
      assert s[open + 1 + n] == body[n] && body[n..][0] == body[n];
    }
  }

  lemma {:induction false} DepthInside(s: string, body: string, open: nat, n: nat)
    requires n <= |body| && open + 1 + |body| <= |s| && s[open] == '(' && s[open + 1..open + 1 + |body|] == body
    requires Closes(body, 0)
    ensures Depth(s[open..open + 1 + n]) >= 1 && Closes(body[n..], Depth(s[open..open + 1 + n]) - 1)
  {
    if n == 0 {
      DepthNext(s, open, open);
      assert body[0..] == body;
    } else {
      DepthInside(s, body, open, n - 1);
      DepthNext(s, open, open + n);
      assert s[open + n] == body[n - 1];
      assert body[n - 1..][1..] == body[n..];
    }
  }

  // ---------------------------------------------------------------- joining and splitting

  function Join(sep: string, parts: seq<string>): string {
    if parts == [] then "" else if |parts| == 1 then parts[0] else parts[0] + sep + Join(sep, parts[1..])
  }

  /** The text cut at its depth-zero commas, from depth d; never empty. */
  function Cut(s: string, d: int): (parts: seq<string>)
    ensures parts != []
  {
    if s == "" then [""]
    else if s[0] == ',' && d == 0 then [""] + Cut(s[1..], 0)
    else
      var rest := Cut(s[1..], d + Step(s[0]));
      [[s[0]] + rest[0]] + rest[1..]
  }

  /** The splitter's result: a last part that is empty is dropped. */
  function SplitParts(s: string): seq<string> {
    var parts := Cut(s, 0);
    if parts[|parts| - 1] == "" then parts[..|parts| - 1] else parts
  }

  lemma JoinHead(sep: string, head: string, x: string, rest: seq<string>)
    ensures Join(sep, [head + x] + rest) == head + Join(sep, [x] + rest)
  {
    assert ([head + x] + rest)[1..] == rest && ([x] + rest)[1..] == rest;
    if rest != [] {
      assert head + x + sep + Join(sep, rest) == head + (x + sep + Join(sep, rest));
    }
  }

  /** Nothing is lost: the cut text joined with commas is the text. */
  lemma {:induction false} JoinCut(s: string, d: int)
    ensures Join(",", Cut(s, d)) == s
  {
    if s != "" {
      if s[0] == ',' && d == 0 {
        JoinCut(s[1..], 0);
        assert ([""] + Cut(s[1..], 0))[1..] == Cut(s[1..], 0);
      } else {
        var rest := Cut(s[1..], d + Step(s[0]));
        JoinCut(s[1..], d + Step(s[0]));
        JoinHead(",", [s[0]], rest[0], rest[1..]);
        assert [rest[0]] + rest[1..] == rest;
      }
      assert s == [s[0]] + s[1..];
    }
  }

  /** The split parts joined with commas give the text back, up to one trailing top-level comma. */
  lemma JoinSplit(s: string)
    ensures Join(",", SplitParts(s)) + (if |SplitParts(s)| < |Cut(s, 0)| && SplitParts(s) != [] then "," else "") == s
  {
    JoinCut(s, 0);
    var parts := Cut(s, 0);
    if parts[|parts| - 1] == "" {
      JoinLast(",", parts[..|parts| - 1], "");
      assert parts == parts[..|parts| - 1] + [""];
    }
  }

  lemma {:induction false} JoinLast(sep: string, parts: seq<string>, last: string)
    ensures Join(sep, parts + [last]) == if parts == [] then last else Join(sep, parts) + sep + last
  {
    if parts != [] {
      assert (parts + [last])[1..] == parts[1..] + [last];
      JoinLast(sep, parts[1..], last);
      if |parts| > 1 {
        assert parts[0] + sep + (Join(sep, parts[1..]) + sep + last)
            == parts[0] + sep + Join(sep, parts[1..]) + sep + last;
      }
    }
  }

  /** A self-contained part: balanced, with no comma of its own at the top. */
  predicate Part(s: string, d: int) {
    Closes(s, d) && NoTopComma(s, d)
  }

  /** Cutting a balanced body leaves balanced parts without top-level commas. */
  lemma {:induction false} CutParts(s: string, d: int)
    requires Closes(s, d)
    ensures Part(Cut(s, d)[0], d)
    ensures forall i | 0 < i < |Cut(s, d)| :: Part(Cut(s, d)[i], 0)
  {
    if s != "" {
      if s[0] == ',' && d == 0 {
        CutParts(s[1..], 0);
      } else {
        var rest := Cut(s[1..], d + Step(s[0]));
        CutParts(s[1..], d + Step(s[0]));
        assert ([s[0]] + rest[0])[1..] == rest[0];
      }
    }
  }

  /** Cutting joined parts gives the parts back. */
  lemma {:induction false} CutJoin(parts: seq<string>)
    requires parts != [] && forall i | 0 <= i < |parts| :: Part(parts[i], 0)
    ensures Cut(Join(",", parts), 0) == parts
  {
    if |parts| == 1 {
      CutOne(parts[0], 0);
    } else {
      CutJoin(parts[1..]);
      CutTwo(parts[0], Join(",", parts[1..]), 0);
      assert parts[0] + "," + Join(",", parts[1..]) == parts[0] + ("," + Join(",", parts[1..]));
    }
  }

  lemma {:induction false} CutOne(p: string, d: int)
    requires Part(p, d)
    ensures Cut(p, d) == [p]
  {
    if p != "" {
      CutOne(p[1..], d + Step(p[0]));
      assert [p[0]] + p[1..] == p;
    }
  }

  lemma {:induction false} CutTwo(p: string, rest: string, d: int)
    requires Part(p, d)
    ensures Cut(p + ("," + rest), d) == [p] + Cut(rest, 0)
  {
    var s := p + ("," + rest);
    if p == "" {
      assert s[1..] == rest;
    } else {
      CutTwo(p[1..], rest, d + Step(p[0]));
      assert s[1..] == p[1..] + ("," + rest) && [p[0]] + p[1..] == p;
      assert ([p[1..]] + Cut(rest, 0))[1..] == Cut(rest, 0);
    }
  }

  // ---------------------------------------------------------------- printing a body

  predicate Space(c: char) {
    c == ' ' || c == '\t' || c == '\n' || c == '\r' || c == '\U{0B}' || c == '\U{0C}'
  }

  function TrimLeft(s: string): string {
    if s != "" && Space(s[0]) then TrimLeft(s[1..]) else s
  }

  function TrimRight(s: string): string {
    if s != "" && Space(s[|s| - 1]) then TrimRight(s[..|s| - 1]) else s
  }

  function Trim(s: string): string {
    TrimRight(TrimLeft(s))
  }

  predicate Blank(s: string) {
    forall i | 0 <= i < |s| :: Space(s[i])
  }

  /** Nothing to trim on either side. */
  predicate Trimmed(s: string) {
    s == "" || (!Space(s[0]) && !Space(s[|s| - 1]))
  }

  lemma {:induction false} TrimLeftParts(s: string) returns (l: string)
    ensures TrimLeft(s) == "" || !Space(TrimLeft(s)[0])
    ensures Blank(l) && s == l + TrimLeft(s)
  {
    if s != "" && Space(s[0]) {
      var rest := TrimLeftParts(s[1..]);
      l := [s[0]] + rest;
    } else {
      l := "";
    }
  }

  lemma {:induction false} TrimRightParts(s: string) returns (r: string)
    ensures TrimRight(s) == "" || !Space(TrimRight(s)[|TrimRight(s)| - 1])
    ensures Blank(r) && s == TrimRight(s) + r
  {
    if s != "" && Space(s[|s| - 1]) {
      var rest := TrimRightParts(s[..|s| - 1]);
      r := rest + [s[|s| - 1]];
    } else {
      r := "";
    }
  }

  /** Trimming takes blanks off both ends and leaves a trimmed core. */
  lemma TrimParts(s: string) returns (l: string, r: string)
    ensures Blank(l) && Blank(r) && s == l + Trim(s) + r && Trimmed(Trim(s))
  {
    l := TrimLeftParts(s);
    r := TrimRightParts(TrimLeft(s));
    if Trim(s) != "" {
      assert Trim(s)[0] == TrimLeft(s)[0];
    }
  }

  lemma {:induction false} TrimLeftBlank(l: string, s: string)
    requires Blank(l) && (s == "" || !Space(s[0]))
    ensures TrimLeft(l + s) == s
  {
    if l == "" {
      assert l + s == s;
    } else {
      assert (l + s)[1..] == l[1..] + s;
      TrimLeftBlank(l[1..], s);
    }
  }

  lemma {:induction false} TrimRightBlank(s: string, r: string)
    requires Blank(r) && (s == "" || !Space(s[|s| - 1]))
    ensures TrimRight(s + r) == s
  {
    if r == "" {
      assert s + r == s;
    } else {
      assert (s + r)[..|s + r| - 1] == s + r[..|r| - 1];
      TrimRightBlank(s, r[..|r| - 1]);
    }
  }

  /** Trimming undoes any blank padding of a trimmed text. */
  lemma TrimPadded(l: string, s: string, r: string)
    requires Blank(l) && Blank(r) && Trimmed(s)
    ensures Trim(l + s + r) == s
  {
    if s == "" {
      assert l + s + r == (l + r) + "";
      TrimLeftBlank(l + r, "");
    } else {
      assert l + s + r == l + (s + r);
      TrimLeftBlank(l, s + r);
      TrimRightBlank(s, r);
    }
  }

  lemma {:induction false} PartPadLeft(l: string, s: string)
    requires Blank(l)
    ensures Part(l + s, 0) <==> Part(s, 0)
  {
    if l == "" {
      assert l + s == s;
    } else {
      assert (l + s)[1..] == l[1..] + s;
      PartPadLeft(l[1..], s);
    }
  }

  lemma {:induction false} PartPadRight(s: string, r: string, d: int)
    requires Blank(r)
    ensures Part(s + r, d) <==> Part(s, d)
  {
    if s == "" {
      assert s + r == r;
      BlankPart(r, d);
    } else {
      assert (s + r)[1..] == s[1..] + r;
      PartPadRight(s[1..], r, d + Step(s[0]));
    }
  }

  lemma {:induction false} BlankPart(r: string, d: int)
    requires Blank(r)
    ensures Part(r, d) <==> d == 0
  {
    if r != "" {
      BlankPart(r[1..], d);
    }
  }

  lemma TrimmedPart(s: string)
    requires Part(s, 0)
    ensures Part(Trim(s), 0)
  {
    var l, r := TrimParts(s);
    assert s == l + (Trim(s) + r);
    PartPadLeft(l, Trim(s) + r);
    PartPadRight(Trim(s), r, 0);
  }

  // Each printed line is a part padded with blanks, and the lines are joined by their commas.

  function Line(part: string, last: bool): string {
    BREAK + INDENT + Trim(part) + if last then BREAK else ""
  }

  const BREAK := "\n"
  const INDENT := "    "

  function Lines(parts: seq<string>): (ls: seq<string>)
    ensures |ls| == |parts|
    ensures forall i | 0 <= i < |parts| :: ls[i] == Line(parts[i], i == |parts| - 1)
  {
    seq(|parts|, i requires 0 <= i < |parts| => Line(parts[i], i == |parts| - 1))
  }

  function Printed(parts: seq<string>): string {
    Join(",", Lines(parts))
  }

  lemma LineBreak(line: string, rest: string)
    ensures "\n    " + line + "," + ("\n    " + rest + "\n") == "\n    " + (line + ",\n    " + rest) + "\n"
  {
  }

  /**
   The layout: every trimmed part on a line of its own, four spaces in, with a comma at the end of all but the last.
   */
  lemma {:induction false} PrintedLayout(parts: seq<string>)
    requires parts != []
    ensures Printed(parts) == "\n    " + Join(",\n    ", Trims(parts)) + "\n"
  {
    if |parts| == 1 {
      assert Trims(parts)[0] == Trim(parts[0]);
      assert "\n    " + Trim(parts[0]) + "\n" == BREAK + INDENT + Trim(parts[0]) + BREAK;
    } else {
      PrintedLayout(parts[1..]);
      assert Lines(parts)[1..] == Lines(parts[1..]) && Trims(parts)[1..] == Trims(parts[1..]);
      LineBreak(Trim(parts[0]), Join(",\n    ", Trims(parts[1..])));
      assert Line(parts[0], false) == "\n    " + Trim(parts[0]);
    }
  }

  lemma LineIsPart(part: string, last: bool)
    requires Part(part, 0)
    ensures Part(Line(part, last), 0) && Trim(Line(part, last)) == Trim(part) && Line(part, last) != ""
  {
    var l, r := BREAK + INDENT, if last then BREAK else "";
    var _, _ := TrimParts(part);
    TrimmedPart(part);
    TrimPadded(l, Trim(part), r);
    assert Line(part, last) == l + (Trim(part) + r);
    PartPadRight(Trim(part), r, 0);
    PartPadLeft(l, Trim(part) + r);
  }

  function Trims(parts: seq<string>): (ts: seq<string>)
    ensures |ts| == |parts|
    ensures forall i | 0 <= i < |parts| :: ts[i] == Trim(parts[i])
  {
    seq(|parts|, i requires 0 <= i < |parts| => Trim(parts[i]))
  }

  /** Re-splitting a printed body and trimming gives the trimmed parts back. */
  lemma ReprintRoundTrip(parts: seq<string>)
    requires parts != [] && forall i | 0 <= i < |parts| :: Part(parts[i], 0)
    ensures SplitParts(Printed(parts)) == Lines(parts)
    ensures Trims(SplitParts(Printed(parts))) == Trims(parts)
  {
    var ls := Lines(parts);
    forall i | 0 <= i < |ls| ensures Part(ls[i], 0) && Trim(ls[i]) == Trim(parts[i]) && ls[i] != "" {
      LineIsPart(parts[i], i == |parts| - 1);
    }
    CutJoin(ls);
  }

  /** Printing a printed body changes nothing more. */
  lemma PrintingIsIdempotent(parts: seq<string>)
    requires parts != [] && forall i | 0 <= i < |parts| :: Part(parts[i], 0)
    ensures Printed(SplitParts(Printed(parts))) == Printed(parts)
  {
    ReprintRoundTrip(parts);
    var ls := Lines(parts);
    forall i | 0 <= i < |ls| ensures Lines(ls)[i] == ls[i] {
      LineIsPart(parts[i], i == |parts| - 1);
    }
    assert Lines(ls) == ls;
  }

  // ---------------------------------------------------------------- the splitter and the printer

  /** A cut resumed in the middle of a part. */
  function Resumed(parts: seq<string>, current: string, rest: seq<string>): seq<string>
    requires rest != []
  {
    parts + [current + rest[0]] + rest[1..]
  }

  lemma ResumeAt(parts: seq<string>, current: string, s: string, i: nat, d: int)
    requires i < |s|
    ensures Resumed(parts, current, Cut(s[i..], d)) ==
            if s[i] == ',' && d == 0 then Resumed(parts + [current], "", Cut(s[i + 1..], 0))
            else Resumed(parts, current + [s[i]], Cut(s[i + 1..], d + Step(s[i])))
  {
    var rest := Cut(s[i + 1..], d + Step(s[i]));
    assert s[i..][1..] == s[i + 1..];
    assert current + ([s[i]] + rest[0]) == current + [s[i]] + rest[0];
    Restart(parts + [current], Cut(s[i + 1..], 0));
    assert current + "" == current;
  }

  lemma Restart(parts: seq<string>, rest: seq<string>)
    requires rest != []
    ensures Resumed(parts, "", rest) == parts + rest
  {
    assert "" + rest[0] == rest[0] && [rest[0]] + rest[1..] == rest;
  }

  method SplitByComma(s: string) returns (parts: seq<string>)
    ensures parts == SplitParts(s)
  {
    parts := [];
    var current, depth := "", 0;
    Restart([], Cut(s, 0));
    assert s[0..] == s;
    for i := 0 to |s|
      invariant Cut(s, 0) == Resumed(parts, current, Cut(s[i..], depth))
    {
      ResumeAt(parts, current, s, i, depth);
      var c := s[i];
      if c == '(' {
        depth := depth + 1;
        current := current + [c];
      } else if c == ')' {
        depth := depth - 1;
        current := current + [c];
      } else if c == ',' && depth == 0 {
        parts := parts + [current];
        current := "";
      } else {
        current := current + [c];
      }
    }
    assert Cut(s, 0) == parts + [current] by {
      assert s[|s|..] == "" && current + "" == current;
    }
    if |current| > 0 {
      parts := parts + [current];
    }
  }

  /** The text written before line i: the finished lines, and the line break that starts this one. */
  function Written(lines: seq<string>, i: nat): string
    requires i <= |lines|
  {
    Join(",", lines[..i]) + Lead(i, |lines|)
  }

  function Lead(i: nat, n: nat): string {
    if i == n then "" else if i == 0 then BREAK else "," + BREAK
  }

  lemma WriteLine(parts: seq<string>, i: nat)
    requires i < |parts|
    ensures Written(Lines(parts), i) + INDENT + Trim(parts[i]) + (if i < |parts| - 1 then "," else "") + BREAK
            == Written(Lines(parts), i + 1)
  {
    var lines := Lines(parts);
    JoinLast(",", lines[..i], lines[i]);
    assert lines[..i + 1] == lines[..i] + [lines[i]];
    Regroup(if i == 0 then "" else Join(",", lines[..i]), if i == 0 then "" else ",",
            BREAK, INDENT, Trim(parts[i]), ",");
    assert Written(lines, i) == (if i == 0 then "" else Join(",", lines[..i])) + ((if i == 0 then "" else ",") + BREAK);
    assert Join(",", lines[..i + 1]) ==
           (if i == 0 then "" else Join(",", lines[..i])) + (if i == 0 then "" else ",") + lines[i];
  }

  lemma Regroup(done: string, sep: string, nl: string, pad: string, t: string, end: string)
    ensures done + (sep + nl) + pad + t + end + nl == done + sep + (nl + pad + t + "") + (end + nl)
    ensures done + (sep + nl) + pad + t + "" + nl == done + sep + (nl + pad + t + nl) + ""
  {
  }

  method PrintBody(parts: seq<string>) returns (s: string)
    requires parts != []
    ensures s == Printed(parts)
  {
    s := BREAK;
    for i := 0 to |parts|
      invariant s == Written(Lines(parts), i)
    {
      WriteLine(parts, i);
      s := s + INDENT + Trim(parts[i]) + (if i < |parts| - 1 then "," else "") + BREAK;
    }
    assert Lines(parts)[..|parts|] == Lines(parts);
  }

  method IndexOf(s: string, c: char) returns (r: int)
    ensures r == -1 <==> c !in s
    ensures r != -1 ==> 0 <= r < |s| && s[r] == c && c !in s[..r]
  {
    for i := 0 to |s|
      invariant c !in s[..i]
    {
      if s[i] == c {
        return i;
      }
    }
    assert s[..|s|] == s;
    r := -1;
  }

  /** The table body sits between the first parenthesis and its match. */
  ghost predicate BodyAt(ddl: string, open: nat, close: nat) {
    && open < close < |ddl| && ddl[open] == '(' && '(' !in ddl[..open]
    && Returns(ddl, open, close) && forall k | open <= k < close :: !Returns(ddl, open, k)
  }

  function Formatted(ddl: string, open: nat, close: nat, options: string, restyle: string -> string): string
    requires open < close < |ddl|
  {
    var header, body, parts := ddl[..open + 1], ddl[open + 1..close], SplitParts(ddl[open + 1..close]);
    if |parts| > 1 then header + Printed(parts) + ")" + (if options == "" then "" else " " + restyle(options))
    else if options == "" then ddl
    else header + Trim(body) + ") " + restyle(options)
  }

  lemma FirstIsUnique(s: string, c: char, i: nat, j: nat)
    requires i < |s| && j < |s| && s[i] == c && s[j] == c && c !in s[..i] && c !in s[..j]
    ensures i == j
  {
    forall k | 0 <= k < i ensures s[k] != c {
      assert s[..i][k] == s[k];
    }
    forall k | 0 <= k < j ensures s[k] != c {
      assert s[..j][k] == s[k];
    }
  }

  ghost predicate HasBody(ddl: string) {
    exists o: nat, c: nat :: BodyAt(ddl, o, c)
  }

  lemma NoBody(ddl: string, open: nat)
    requires open < |ddl| && ddl[open] == '(' && '(' !in ddl[..open]
    requires forall k | open <= k < |ddl| :: !Returns(ddl, open, k)
    ensures !HasBody(ddl)
  {
    forall o: nat, c: nat ensures !BodyAt(ddl, o, c) {
      if o < |ddl| && ddl[o] == '(' && '(' !in ddl[..o] {
        FirstIsUnique(ddl, '(', o, open);
      }
    }
  }

  method LocateBody(ddl: string) returns (open: int, close: int)
    ensures open == -1 <==> !HasBody(ddl)
    ensures open != -1 ==> 0 <= open < close && BodyAt(ddl, open, close)
  {
    open := IndexOf(ddl, '(');
    if open == -1 {
      return -1, -1;
    }
    close := FindMatchingParen(ddl, open);
    DepthNext(ddl, open, open);
    if close == -1 {
      NoBody(ddl, open);
      return -1, -1;
    }
    assert BodyAt(ddl, open, close);
  }

  /** `restyle` prints a trimmed, non-empty options text. */
  method FormatCreateTable(ddl: string, restyle: string -> string) returns (out: string, open: int, close: int)
    ensures open == -1 <==> !HasBody(ddl)
    ensures open == -1 ==> out == ddl
    ensures open != -1 ==> 0 <= open < close && BodyAt(ddl, open, close)
    ensures open != -1 ==> out == Formatted(ddl, open, close, Trim(ddl[close + 1..]), restyle)
    // several parts are printed anew and can be read back; a lone part stays on its line; the options come last
    ensures open != -1 ==>
              var body, options := ddl[open + 1..close], Trim(ddl[close + 1..]);
              var tail := if options == "" then "" else " " + restyle(options);
              if |SplitParts(body)| > 1 then
                && out == ddl[..open + 1] + Printed(SplitParts(body)) + ")" + tail
                && Reprints(out, open, SplitParts(body))
              else out == if options == "" then ddl else ddl[..open + 1] + Trim(body) + ")" + tail
  {
    open, close := LocateBody(ddl);
    if open == -1 {
      return ddl, open, close;
    }
    FormattedText(ddl, open, close, restyle);
    out := FormatAround(ddl, open, close, restyle);
  }

  lemma FormattedText(ddl: string, open: nat, close: nat, restyle: string -> string)
    requires BodyAt(ddl, open, close)
    ensures var body, options := ddl[open + 1..close], Trim(ddl[close + 1..]);
            var tail := if options == "" then "" else " " + restyle(options);
            var out := Formatted(ddl, open, close, options, restyle);
            if |SplitParts(body)| > 1 then
              && out == ddl[..open + 1] + Printed(SplitParts(body)) + ")" + tail
              && Reprints(out, open, SplitParts(body))
            else out == if options == "" then ddl else ddl[..open + 1] + Trim(body) + ")" + tail
  {
    var body, options := ddl[open + 1..close], Trim(ddl[close + 1..]);
    var tail := if options == "" then "" else " " + restyle(options);
    if |SplitParts(body)| > 1 {
      FormattedBody(ddl, open, close, tail);
      assert options == "" ==> ddl[..open + 1] + Printed(SplitParts(body)) + ")" + ""
                               == ddl[..open + 1] + Printed(SplitParts(body)) + ")";
    } else {
      assert ddl[..open + 1] + Trim(body) + ") " + restyle(options)
             == ddl[..open + 1] + Trim(body) + ")" + (" " + restyle(options));
    }
  }

  method FormatAround(ddl: string, open: nat, close: nat, restyle: string -> string) returns (out: string)
    requires open < close < |ddl|
    ensures out == Formatted(ddl, open, close, Trim(ddl[close + 1..]), restyle)
  {
    var header, body := ddl[..open + 1], ddl[open + 1..close];
    var parts := SplitByComma(body);
    var options := Trim(ddl[close + 1..]);
    if |parts| <= 1 {
      if options != "" {
        return header + Trim(body) + ") " + restyle(options);
      }
      return ddl;
    }
    var printed := PrintBody(parts);
    out := header + printed + ")";
    if options != "" {
      out := out + " " + restyle(options);
    }
  }

  lemma Spliced(header: string, body: string, tail: string)
    requires header != ""
    ensures var out, open := header + body + ")" + tail, |header| - 1;
            && out[open] == header[open] && out[..open] == header[..open]
            && out[open + 1..open + 1 + |body|] == body && out[open + 1 + |body|] == ')'
  {
  }

  lemma BodyPlaced(out: string, open: nat, body: string)
    requires open + 1 + |body| < |out| && out[open] == '(' && '(' !in out[..open] && out[open + 1 + |body|] == ')'
    requires out[open + 1..open + 1 + |body|] == body && Closes(body, 0)
    ensures BodyAt(out, open, open + 1 + |body|)
  {
    forall k | open <= k <= open + 1 + |body| ensures Returns(out, open, k) <==> k == open + 1 + |body| {
      BodyIsMatched(out, open, body, k);
    }
  }

  lemma SplitPartsAreParts(s: string)
    requires Closes(s, 0)
    ensures forall i | 0 <= i < |SplitParts(s)| :: Part(SplitParts(s)[i], 0)
  {
    CutParts(s, 0);
  }

  /**
   Text printed around a body of several parts has that body again: same parts, and printing it again changes nothing.
   */
  lemma FormattedBody(ddl: string, open: nat, close: nat, tail: string)
    requires BodyAt(ddl, open, close) && |SplitParts(ddl[open + 1..close])| > 1
    ensures var parts := SplitParts(ddl[open + 1..close]);
            Reprints(ddl[..open + 1] + Printed(parts) + ")" + tail, open, parts)
  {
    MatchedBody(ddl, open, close);
    SplitPartsAreParts(ddl[open + 1..close]);
    var header := ddl[..open + 1];
    assert header[..open] == ddl[..open];
    FormattedParts(header, SplitParts(ddl[open + 1..close]), tail);
  }

  ghost predicate Reprints(out: string, open: nat, parts: seq<string>) {
    var body := Printed(parts);
    && BodyAt(out, open, open + 1 + |body|) && out[open + 1..open + 1 + |body|] == body
    && Trims(SplitParts(body)) == Trims(parts)
    && Printed(SplitParts(body)) == body
  }

  lemma FormattedParts(header: string, parts: seq<string>, tail: string)
    requires header != "" && header[|header| - 1] == '(' && '(' !in header[..|header| - 1]
    requires parts != [] && forall i | 0 <= i < |parts| :: Part(parts[i], 0)
    ensures Reprints(header + Printed(parts) + ")" + tail, |header| - 1, parts)
  {
    PrintedCloses(parts);
    ReprintRoundTrip(parts);
    PrintingIsIdempotent(parts);
    Spliced(header, Printed(parts), tail);
    BodyPlaced(header + Printed(parts) + ")" + tail, |header| - 1, Printed(parts));
  }

  lemma PrintedCloses(parts: seq<string>)
    requires parts != [] && forall i | 0 <= i < |parts| :: Part(parts[i], 0)
    ensures Closes(Printed(parts), 0)
  {
    var lines := Lines(parts);
    forall i | 0 <= i < |lines| ensures Part(lines[i], 0) {
      LineIsPart(parts[i], i == |parts| - 1);
    }
    JoinCloses(lines);
  }

  lemma {:induction false} JoinCloses(parts: seq<string>)
    requires forall i | 0 <= i < |parts| :: Part(parts[i], 0)
    ensures Closes(Join(",", parts), 0)
  {
    if |parts| > 1 {
      JoinCloses(parts[1..]);
      ClosesThen(parts[0], "," + Join(",", parts[1..]), 0);
      assert ("," + Join(",", parts[1..]))[1..] == Join(",", parts[1..]);
      assert parts[0] + "," + Join(",", parts[1..]) == parts[0] + ("," + Join(",", parts[1..]));
    }
  }

  lemma {:induction false} ClosesThen(p: string, rest: string, d: int)
    requires Closes(p, d)
    ensures Closes(p + rest, d) <==> Closes(rest, 0)
  {
    if p == "" {
      assert p + rest == rest;
    } else {
      assert (p + rest)[1..] == p[1..] + rest;
      ClosesThen(p[1..], rest, d + Step(p[0]));
    }
  }

  // ---------------------------------------------------------------- ALTER TABLE clauses

  function Upper(c: char): char {
    if 'a' <= c <= 'z' then c - 32 as char else c
  }

  /** Case-insensitive prefix test against an upper-case keyword. */
  predicate HasKeyword(s: string, keyword: string) {
    |keyword| <= |s| && forall i | 0 <= i < |keyword| :: Upper(s[i]) == keyword[i]
  }

  const KEYWORDS := ["ADD ", "DROP ", "MODIFY ", "CHANGE ", "RENAME ",
                     "ALTER ", "CONVERT ", "ENABLE ", "DISABLE ", "ORDER "]

  predicate StartsWithAny(s: string, keywords: seq<string>) {
    keywords != [] && (HasKeyword(s, keywords[0]) || StartsWithAny(s, keywords[1..]))
  }

  predicate IsClauseKeyword(s: string) {
    StartsWithAny(s, KEYWORDS)
  }

  predicate Letter(c: char) {
    'A' <= Upper(c) <= 'Z'
  }

  /** Every keyword is longer than three characters and starts with two letters. */
  lemma KeywordLetters()
    ensures forall j | 0 <= j < |KEYWORDS| ::
              |KEYWORDS[j]| > 3 && 'A' <= KEYWORDS[j][0] <= 'Z' && 'A' <= KEYWORDS[j][1] <= 'Z'
  {
  }

  lemma {:induction false} SomeKeyword(s: string, keywords: seq<string>) returns (j: nat)
    requires StartsWithAny(s, keywords)
    ensures j < |keywords| && HasKeyword(s, keywords[j])
  {
    if HasKeyword(s, keywords[0]) {
      j := 0;
    } else {
      var k := SomeKeyword(s, keywords[1..]);
      j := k + 1;
    }
  }

  lemma KeywordShape(s: string)
    requires IsClauseKeyword(s)
    ensures |s| > 3 && Letter(s[0]) && Letter(s[1])
  {
    var j := SomeKeyword(s, KEYWORDS);
    KeywordLetters();
    assert Upper(s[0]) == KEYWORDS[j][0] && Upper(s[1]) == KEYWORDS[j][1];
  }

  function SkipSpaces(s: string): (r: string)
    ensures |r| <= |s|
  {
    if s != "" && s[0] == ' ' then SkipSpaces(s[1..]) else s
  }

  lemma {:induction false} SkippedSpaces(s: string)
    ensures SkipSpaces(s) != "" ==> SkipSpaces(s)[0] != ' '
  {
    if s != "" && s[0] == ' ' {
      SkippedSpaces(s[1..]);
    }
  }

  /** The comma at the head of s, at depth d, separates two clauses. */
  predicate Separates(s: string, d: int) {
    s != "" && s[0] == ',' && d == 0 && IsClauseKeyword(SkipSpaces(s[1..]))
  }

  /** What the scanner resumes at after a separating comma: one character is always passed over, then every space. */
  function AfterSeparator(s: string): (r: string)
    ensures s != "" ==> |r| < |s|
    ensures |s| > 1 ==> |r| <= |s| - 2
  {
    if |s| < 2 then "" else SkipSpaces(s[2..])
  }

  /** The clauses of the text after the table name, from depth d; never empty. */
  function Clauses(s: string, d: int): (cs: seq<string>)
    ensures cs != []
    decreases |s|
  {
    if s == "" then [""]
    else if Separates(s, d) then [""] + Clauses(AfterSeparator(s), 0)
    else
      var rest := Clauses(s[1..], d + Step(s[0]));
      [[s[0]] + rest[0]] + rest[1..]
  }

  /** Every separating comma is followed by exactly one space. */
  ghost predicate OneSpaced(s: string, d: int)
    decreases |s|
  {
    s == "" || if Separates(s, d) then |s| > 2 && s[1] == ' ' && s[2] != ' ' && OneSpaced(s[2..], 0)
               else OneSpaced(s[1..], d + Step(s[0]))
  }

  lemma {:induction false} JoinNeverGrows(s: string, d: int)
    ensures |Join(", ", Clauses(s, d))| <= |s|
    decreases |s|
  {
    if s != "" {
      if Separates(s, d) {
        KeywordBehind(s);
        JoinNeverGrows(AfterSeparator(s), 0);
        JoinSeparated(Clauses(AfterSeparator(s), 0));
      } else {
        var rest := Clauses(s[1..], d + Step(s[0]));
        JoinNeverGrows(s[1..], d + Step(s[0]));
        JoinHead(", ", [s[0]], rest[0], rest[1..]);
        assert [rest[0]] + rest[1..] == rest;
      }
    }
  }

  /** Joining the clauses gives the text back exactly when every separating comma is followed by one space. */
  lemma {:induction false} JoinClausesIff(s: string, d: int)
    ensures Join(", ", Clauses(s, d)) == s <==> OneSpaced(s, d)
    decreases |s|
  {
    if s != "" {
      if Separates(s, d) {
        KeywordBehind(s);
        var r := AfterSeparator(s);
        JoinNeverGrows(r, 0);
        JoinClausesIff(r, 0);
        JoinSeparated(Clauses(r, 0));
        SeparatorIff(s, Join(", ", Clauses(r, 0)));
      } else {
        var rest := Clauses(s[1..], d + Step(s[0]));
        JoinClausesIff(s[1..], d + Step(s[0]));
        JoinHead(", ", [s[0]], rest[0], rest[1..]);
        assert [rest[0]] + rest[1..] == rest;
        HeadIff(s[0], Join(", ", rest), s);
      }
    }
  }

  lemma JoinSeparated(rest: seq<string>)
    requires rest != []
    ensures Join(", ", [""] + rest) == ", " + Join(", ", rest)
  {
    assert ([""] + rest)[1..] == rest && "" + ", " == ", ";
  }

  lemma HeadIff(c: char, x: string, s: string)
    requires s != "" && s[0] == c
    ensures [c] + x == s <==> x == s[1..]
  {
    assert ([c] + x)[1..] == x && s == [c] + s[1..];
  }

  lemma SeparatorIff(s: string, x: string)
    requires |s| > 2 && s[0] == ',' && |x| <= |AfterSeparator(s)|
    ensures ", " + x == s <==> s[1] == ' ' && s[2] != ' ' && x == AfterSeparator(s)
    ensures s[2] != ' ' ==> AfterSeparator(s) == s[2..]
  {
    SkippedSpaces(s[2..]);
    assert s[2..][1..] == s[3..];
    var all := ", " + x;
    assert all[0] == ',' && all[1] == ' ' && all[2..] == x;
    assert s == [s[0], s[1]] + s[2..] && all == [',', ' '] + x;
  }

  /** A comma outside parentheses with a clause keyword behind it. */
  ghost predicate ClauseComma(s: string, i: nat)
    requires i < |s|
  {
    s[i] == ',' && Depth(s[..i]) == 0 && IsClauseKeyword(SkipSpaces(s[i + 1..]))
  }

  predicate OneSpaceAfter(s: string, i: nat) {
    i + 2 < |s| && s[i + 1] == ' ' && s[i + 2] != ' '
  }

  /** The scanner's condition, stated over positions. */
  lemma {:induction false} OneSpacedIff(s: string, k: nat)
    requires k <= |s|
    ensures OneSpaced(s[k..], Depth(s[..k])) <==> forall i | k <= i < |s| && ClauseComma(s, i) :: OneSpaceAfter(s, i)
    decreases |s| - k
  {
    if k < |s| {
      DepthStep(s, k);
      assert s[k..][1..] == s[k + 1..];
      if !Separates(s[k..], Depth(s[..k])) {
        OneSpacedIff(s, k + 1);
      } else if OneSpaceAfter(s, k) {
        DepthStep(s, k + 1);
        assert s[k..][2..] == s[k + 2..];
        OneSpacedIff(s, k + 2);
      } else {
        assert ClauseComma(s, k);
      }
    }
  }

  lemma DepthStep(s: string, k: nat)
    requires k < |s|
    ensures Depth(s[..k + 1]) == Depth(s[..k]) + Step(s[k])
  {
    assert s[..k + 1][..k] == s[..k];
  }

  lemma KeywordBehind(s: string)
    requires |s| > 0 && IsClauseKeyword(SkipSpaces(s[1..]))
    ensures |s| > 4 && AfterSeparator(s) != ""
  {
    var k := SkipSpaces(s[1..]);
    KeywordShape(k);
    assert s[1..][1..] == s[2..];
    if s[1] != ' ' {
      assert k == s[1..] && s[2] == k[1];
    }
  }

  lemma {:induction false} LastClauseNonEmpty(s: string, d: int)
    requires s != ""
    ensures var cs := Clauses(s, d); cs[|cs| - 1] != ""
    decreases |s|
  {
    if Separates(s, d) {
      KeywordBehind(s);
      LastClauseNonEmpty(AfterSeparator(s), 0);
    } else if |s| > 1 {
      LastClauseNonEmpty(s[1..], d + Step(s[0]));
    }
  }

  lemma ResumeClauses(clauses: seq<string>, current: string, s: string, i: nat, d: int)
    requires i < |s|
    ensures Resumed(clauses, current, Clauses(s[i..], d)) ==
            if Separates(s[i..], d) then Resumed(clauses + [current], "", Clauses(AfterSeparator(s[i..]), 0))
            else Resumed(clauses, current + [s[i]], Clauses(s[i + 1..], d + Step(s[i])))
  {
    assert s[i..][1..] == s[i + 1..] && current + "" == current;
    if Separates(s[i..], d) {
      Restart(clauses + [current], Clauses(AfterSeparator(s[i..]), 0));
    } else {
      var rest := Clauses(s[i + 1..], d + Step(s[i]));
      assert current + ([s[i]] + rest[0]) == current + [s[i]] + rest[0];
    }
  }

  /** Passes over the character behind the comma and then over every space. */
  method SkipSeparator(s: string, comma: nat) returns (next: nat)
    requires comma + 2 <= |s|
    ensures comma + 2 <= next <= |s| && s[next..] == AfterSeparator(s[comma..])
  {
    var i := comma + 1;
    assert s[comma..][2..] == s[i + 1..];
    while i + 1 < |s| && s[i + 1] == ' '
      invariant comma + 1 <= i < |s|
      invariant SkipSpaces(s[comma..][2..]) == SkipSpaces(s[i + 1..])
    {
      assert s[i + 1..][1..] == s[i + 2..];
      i := i + 1;
    }
    next := i + 1;
  }

  /** One turn of the scanner at position i: a separating comma closes the clause, any other character extends it. */
  method ScanOne(s: string, i: nat, clauses: seq<string>, current: string, depth: int)
    returns (next: nat, clauses': seq<string>, current': string, depth': int)
    requires i < |s|
    ensures i < next <= |s|
    ensures Resumed(clauses', current', Clauses(s[next..], depth')) == Resumed(clauses, current, Clauses(s[i..], depth))
  {
    ResumeClauses(clauses, current, s, i, depth);
    assert s[i..][1..] == s[i + 1..];
    var c := s[i];
    depth' := depth + if c == '(' then 1 else if c == ')' then -1 else 0;
    if depth' == 0 && c == ',' && i + 1 < |s| && IsClauseKeyword(SkipSpaces(s[i + 1..])) {
      KeywordBehind(s[i..]);
      next := SkipSeparator(s, i);
      return next, clauses + [current], "", depth';
    }
    assert !Separates(s[i..], depth) by {
      if i + 1 == |s| {
        NoKeyword();
      }
    }
    return i + 1, clauses, current + [c], depth';
  }

  lemma NoKeyword()
    ensures !IsClauseKeyword(SkipSpaces(""))
  {
    if IsClauseKeyword("") {
      KeywordShape("");
    }
  }

  /** Splits the text after the table name; a non-empty text always yields at least one clause. */
  method SplitClauses(s: string) returns (clauses: seq<string>)
    requires s != ""
    ensures clauses == Clauses(s, 0)
  {
    clauses := [];
    var current, depth, i := "", 0, 0;
    Restart([], Clauses(s, 0));
    assert s[0..] == s;
    while i < |s|
      invariant i <= |s|
      invariant Clauses(s, 0) == Resumed(clauses, current, Clauses(s[i..], depth))
    {
      i, clauses, current, depth := ScanOne(s, i, clauses, current, depth);
    }
    LastClauseNonEmpty(s, 0);
    assert s[i..] == "" && current + "" == current;
    if |current| > 0 {
      clauses := clauses + [current];
    }
  }

  // ---------------------------------------------------------------- where the clauses are cut

  /** The scanner resumes behind the character after the comma and behind every space that follows it. */
  ghost predicate Resumes(s: string, comma: nat, start: nat) {
    comma + 2 <= start < |s| && (forall k | comma + 2 <= k < start :: s[k] == ' ') && s[start] != ' '
  }

  /**
   The clauses are the text between the given positions: each cut is a clause comma, and every clause comma is one.
   */
  ghost predicate CutFrom(s: string, k: nat, cs: seq<string>, starts: seq<nat>, ends: seq<nat>) {
    && 0 < |cs| == |starts| == |ends| && starts[0] == k && ends[|ends| - 1] == |s|
    && (forall j | 0 <= j < |cs| :: starts[j] <= ends[j] <= |s| && cs[j] == s[starts[j]..ends[j]])
    && (forall j | 0 < j < |cs| :: CutAt(s, ends[j - 1], starts[j]))
    && (forall i | k <= i < |s| && ClauseComma(s, i) :: IsCut(ends, i))
  }

  ghost predicate CutAt(s: string, comma: nat, start: nat) {
    comma < |s| && ClauseComma(s, comma) && Resumes(s, comma, start) && Depth(s[..start]) == 0
  }

  ghost predicate IsCut(ends: seq<nat>, i: nat) {
    exists j | 0 <= j < |ends| - 1 :: ends[j] == i
  }

  lemma {:induction false} FlatDepth(s: string, i: nat, j: nat)
    requires i <= j <= |s| && forall k | i <= k < j :: Step(s[k]) == 0
    ensures Depth(s[..j]) == Depth(s[..i])
    decreases j - i
  {
    if i < j {
      FlatDepth(s, i, j - 1);
      DepthStep(s, j - 1);
    }
  }

  lemma {:induction false} SkipTo(s: string, i: nat) returns (j: nat)
    requires i <= |s|
    ensures i <= j <= |s| && SkipSpaces(s[i..]) == s[j..] && (forall k | i <= k < j :: s[k] == ' ')
    ensures j < |s| ==> s[j] != ' '
    decreases |s| - i
  {
    if i < |s| && s[i] == ' ' {
      assert s[i..][1..] == s[i + 1..];
      j := SkipTo(s, i + 1);
    } else {
      j := i;
    }
  }

  /** A separating comma at position k and where the scanner resumes. */
  lemma SeparatorAt(s: string, k: nat) returns (start: nat)
    requires k < |s| && Separates(s[k..], Depth(s[..k]))
    ensures start <= |s| && AfterSeparator(s[k..]) == s[start..] && CutAt(s, k, start)
    ensures forall i | k < i < start :: s[i] != ','
  {
    assert s[k..][1..] == s[k + 1..];
    KeywordBehind(s[k..]);
    assert s[k..][2..] == s[k + 2..];
    start := SkipTo(s, k + 2);
    if s[k + 1] != ' ' {
      KeywordShape(s[k + 1..]);
      assert s[k + 1..][0] == s[k + 1];
    }
    assert forall i | k <= i < start :: Step(s[i]) == 0;
    FlatDepth(s, k, start);
  }

  lemma CutExtends(s: string, k: nat, cs: seq<string>, starts: seq<nat>, ends: seq<nat>)
    requires k < |s| && CutFrom(s, k + 1, cs, starts, ends) && !ClauseComma(s, k)
    ensures CutFrom(s, k, [[s[k]] + cs[0]] + cs[1..], [k] + starts[1..], ends)
  {
    assert s[k..ends[0]] == [s[k]] + s[k + 1..ends[0]];
  }

  lemma CutsPrepend(ends: seq<nat>, k: nat, i: nat)
    requires ends != [] && (i == k || IsCut(ends, i))
    ensures IsCut([k] + ends, i)
  {
    var all := [k] + ends;
    if i == k {
      assert all[0] == i;
    } else {
      var j :| 0 <= j < |ends| - 1 && ends[j] == i;
      assert all[j + 1] == i;
    }
  }

  lemma CutPrepends(s: string, k: nat, start: nat, cs: seq<string>, starts: seq<nat>, ends: seq<nat>)
    requires k < |s| && CutAt(s, k, start) && (forall i | k < i < start :: s[i] != ',')
    requires CutFrom(s, start, cs, starts, ends)
    ensures CutFrom(s, k, [""] + cs, [k] + starts, [k] + ends)
  {
    var cs', starts', ends' := [""] + cs, [k] + starts, [k] + ends;
    forall j | 0 <= j < |cs'| ensures starts'[j] <= ends'[j] <= |s| && cs'[j] == s[starts'[j]..ends'[j]] {
      if j > 0 {
        assert cs'[j] == cs[j - 1] && starts'[j] == starts[j - 1] && ends'[j] == ends[j - 1];
      }
    }
    forall j | 0 < j < |cs'| ensures CutAt(s, ends'[j - 1], starts'[j]) {
      if j > 1 {
        assert CutAt(s, ends[j - 2], starts[j - 1]);
      }
    }
    forall i | k <= i < |s| && ClauseComma(s, i) ensures IsCut(ends', i) {
      CutsPrepend(ends, k, i);
    }
  }

  /** One turn of the scanner, over positions. */
  lemma ClausesTurn(s: string, k: nat, start: nat)
    requires k < |s| && start <= |s|
    ensures Separates(s[k..], Depth(s[..k])) <==> ClauseComma(s, k)
    ensures ClauseComma(s, k) && AfterSeparator(s[k..]) == s[start..] ==>
              Clauses(s[k..], Depth(s[..k])) == [""] + Clauses(s[start..], 0)
    ensures !ClauseComma(s, k) ==>
              var rest := Clauses(s[k + 1..], Depth(s[..k + 1]));
              Clauses(s[k..], Depth(s[..k])) == [[s[k]] + rest[0]] + rest[1..]
  {
    assert s[k..][1..] == s[k + 1..];
    DepthStep(s, k);
  }

  /** The scanner cuts exactly at the clause commas. */
  lemma {:induction false} ClausesAreCut(s: string, k: nat) returns (starts: seq<nat>, ends: seq<nat>)
    requires k <= |s|
    ensures CutFrom(s, k, Clauses(s[k..], Depth(s[..k])), starts, ends)
    decreases |s| - k
  {
    if k == |s| {
      starts, ends := [k], [k];
      assert s[k..k] == "" && Clauses(s[k..], Depth(s[..k])) == [""];
    } else if ClauseComma(s, k) {
      ClausesTurn(s, k, k);
      var start := SeparatorAt(s, k);
      ClausesTurn(s, k, start);
      var starts', ends' := ClausesAreCut(s, start);
      CutPrepends(s, k, start, Clauses(s[start..], 0), starts', ends');
      starts, ends := [k] + starts', [k] + ends';
    } else {
      ClausesTurn(s, k, k);
      var starts', ends' := ClausesAreCut(s, k + 1);
      CutExtends(s, k, Clauses(s[k + 1..], Depth(s[..k + 1])), starts', ends');
      starts, ends := [k] + starts'[1..], ends';
    }
  }

  // What the cuts mean for the clauses themselves.

  lemma {:induction false} SkipSpacesExtends(x: string, y: string)
    requires SkipSpaces(x) != ""
    ensures SkipSpaces(x + y) == SkipSpaces(x) + y
  {
    if x[0] == ' ' {
      assert (x + y)[1..] == x[1..] + y;
      SkipSpacesExtends(x[1..], y);
    }
  }

  lemma {:induction false} KeywordExtends(x: string, y: string, keywords: seq<string>)
    ensures StartsWithAny(x, keywords) ==> StartsWithAny(x + y, keywords)
  {
    if keywords != [] {
      KeywordExtends(x, y, keywords[1..]);
      if HasKeyword(x, keywords[0]) {
        assert forall i | 0 <= i < |keywords[0]| :: (x + y)[i] == x[i];
      }
    }
  }

  lemma {:induction false} DepthJoins(x: string, y: string)
    ensures Depth(x + y) == Depth(x) + Depth(y)
  {
    if y == "" {
      assert x + y == x;
    } else {
      DepthJoins(x, y[..|y| - 1]);
      assert (x + y)[..|x + y| - 1] == x + y[..|y| - 1];
    }
  }

  /** A clause comma of a piece that starts at depth zero is a clause comma of the whole. */
  lemma PieceComma(s: string, a: nat, b: nat, i: nat)
    requires a <= b <= |s| && Depth(s[..a]) == 0 && i < b - a && ClauseComma(s[a..b], i)
    ensures ClauseComma(s, a + i)
  {
    var c := s[a..b];
    assert s[..a + i] == s[..a] + c[..i];
    DepthJoins(s[..a], c[..i]);
    var x, y := c[i + 1..], s[b..];
    assert s[a + i + 1..] == x + y;
    KeywordShape(SkipSpaces(x));
    SkipSpacesExtends(x, y);
    KeywordExtends(SkipSpaces(x), y, KEYWORDS);
  }

  /** No clause holds a clause comma of its own. */
  lemma ClauseIsWhole(s: string, cs: seq<string>, starts: seq<nat>, ends: seq<nat>, j: nat, i: nat)
    requires CutFrom(s, 0, cs, starts, ends) && j < |cs| && i < |cs[j]|
    ensures !ClauseComma(cs[j], i)
  {
    if ClauseComma(cs[j], i) {
      assert Depth(s[..starts[j]]) == 0;
      PieceComma(s, starts[j], ends[j], i);
      assert IsCut(ends, starts[j] + i);
      var n :| 0 <= n < |ends| - 1 && ends[n] == starts[j] + i;
      EndsAscend(s, cs, starts, ends, n, j);
    }
  }

  ghost predicate Alternate(starts: seq<nat>, ends: seq<nat>) {
    |starts| == |ends| && (forall j | 0 <= j < |ends| :: starts[j] <= ends[j])
    && forall j | 0 < j < |ends| :: ends[j - 1] < starts[j]
  }

  lemma CutsAlternate(s: string, cs: seq<string>, starts: seq<nat>, ends: seq<nat>)
    requires CutFrom(s, 0, cs, starts, ends)
    ensures Alternate(starts, ends)
  {
    forall j | 0 < j < |ends| ensures ends[j - 1] < starts[j] {
      assert CutAt(s, ends[j - 1], starts[j]);
    }
  }

  lemma {:induction false} InOrder(starts: seq<nat>, ends: seq<nat>, m: nat, n: nat)
    requires Alternate(starts, ends) && m < n < |ends|
    ensures ends[m] < starts[n]
    decreases n
  {
    if m < n - 1 {
      InOrder(starts, ends, m, n - 1);
    }
  }

  lemma CutsInOrder(s: string, cs: seq<string>, starts: seq<nat>, ends: seq<nat>, m: nat, n: nat)
    requires CutFrom(s, 0, cs, starts, ends) && m < n < |cs|
    ensures ends[m] < starts[n]
  {
    CutsAlternate(s, cs, starts, ends);
    InOrder(starts, ends, m, n);
  }

  lemma EndsAscend(s: string, cs: seq<string>, starts: seq<nat>, ends: seq<nat>, m: nat, n: nat)
    requires CutFrom(s, 0, cs, starts, ends) && m < |cs| && n < |cs|
    ensures !(starts[n] <= ends[m] < ends[n])
  {
    if m < n {
      CutsInOrder(s, cs, starts, ends, m, n);
    } else if n < m {
      CutsInOrder(s, cs, starts, ends, n, m);
    }
  }

  /** Positions of the clause commas. */
  ghost function ClauseCommas(s: string): set<nat> {
    set i: nat | i < |s| && ClauseComma(s, i)
  }

  ghost function Elements(xs: seq<nat>): set<nat> {
    set x | x in xs
  }

  lemma {:induction false} DistinctCount(xs: seq<nat>)
    requires forall i, j | 0 <= i < j < |xs| :: xs[i] < xs[j]
    ensures |Elements(xs)| == |xs|
  {
    if xs != [] {
      var n := |xs| - 1;
      var init := xs[..n];
      DistinctCount(init);
      assert xs == init + [xs[n]];
      assert xs[n] !in Elements(init);
      assert Elements(xs) == Elements(init) + {xs[n]};
    }
  }

  /** There is one clause more than there are clause commas. */
  lemma ClauseCount(s: string, cs: seq<string>, starts: seq<nat>, ends: seq<nat>)
    requires CutFrom(s, 0, cs, starts, ends)
    ensures |cs| == 1 + |ClauseCommas(s)|
  {
    var cuts := ends[..|ends| - 1];
    forall i, j | 0 <= i < j < |cuts| ensures cuts[i] < cuts[j] {
      CutsInOrder(s, cs, starts, ends, i, j);
    }
    DistinctCount(cuts);
    forall i | i in cuts ensures i in ClauseCommas(s) {
      var j :| 0 <= j < |cuts| && cuts[j] == i;
      assert CutAt(s, ends[j], starts[j + 1]);
    }
    forall i | i in ClauseCommas(s) ensures i in cuts {
      assert IsCut(ends, i);
      var j :| 0 <= j < |ends| - 1 && ends[j] == i;
      assert cuts[j] == i;
    }
    assert Elements(cuts) == ClauseCommas(s);
  }

  /** No keyword holds a comma. */
  lemma {:induction false} KeywordInPiece(x: string, n: nat, keywords: seq<string>)
    requires StartsWithAny(x, keywords) && n <= |x| && (n == |x| || x[n] == ',')
    requires forall j, i | 0 <= j < |keywords| && 0 <= i < |keywords[j]| :: keywords[j][i] != ','
    ensures StartsWithAny(x[..n], keywords)
  {
    if HasKeyword(x, keywords[0]) {
      assert |keywords[0]| <= n;
      assert forall i | 0 <= i < |keywords[0]| :: x[..n][i] == x[i];
    } else {
      assert forall j | 0 < j < |keywords| :: keywords[j] == keywords[1..][j - 1];
      KeywordInPiece(x, n, keywords[1..]);
    }
  }

  lemma KeywordsHaveNoComma()
    ensures forall j, i | 0 <= j < |KEYWORDS| && 0 <= i < |KEYWORDS[j]| :: KEYWORDS[j][i] != ','
  {
  }

  predicate SpaceBehind(s: string, i: nat) {
    i + 1 < |s| && s[i + 1] == ' '
  }

  lemma PieceHasKeyword(s: string, comma: nat, start: nat, end: nat)
    requires CutAt(s, comma, start) && SpaceBehind(s, comma)
    requires start <= end <= |s| && (end == |s| || s[end] == ',')
    ensures IsClauseKeyword(s[start..end])
  {
    SkipRun(s, comma + 1, start);
    var x, n := s[start..], end - start;
    assert n < |x| ==> x[n] == s[end];
    KeywordsHaveNoComma();
    KeywordInPiece(x, n, KEYWORDS);
    assert x[..n] == s[start..end];
  }

  /** No keyword without its first letter begins like a keyword. */
  predicate Apart(a: string, b: string) {
    |a| > 3 && |b| > 3 && (a[1] != b[0] || a[2] != b[1] || a[3] != b[2] || (|a| > 4 && a[4] != b[3]))
  }

  lemma KeywordsApart(a: string)
    requires a in KEYWORDS
    ensures forall k | 0 <= k < |KEYWORDS| :: Apart(a, KEYWORDS[k])
  {
    var j :| 0 <= j < |KEYWORDS| && KEYWORDS[j] == a;
    forall k | 0 <= k < |KEYWORDS| ensures Apart(a, KEYWORDS[k]) {
      assert Apart(KEYWORDS[j], KEYWORDS[k]);
    }
  }

  lemma {:induction false} NoneOf(x: string, keywords: seq<string>)
    requires forall k | 0 <= k < |keywords| :: !HasKeyword(x, keywords[k])
    ensures !StartsWithAny(x, keywords)
  {
    if keywords != [] {
      NoneOf(x, keywords[1..]);
    }
  }

  /** A keyword that lost its first letter is not a keyword. */
  lemma LostLetter(x: string)
    requires IsClauseKeyword(x)
    ensures x != "" && !IsClauseKeyword(x[1..])
  {
    KeywordShape(x);
    var j := SomeKeyword(x, KEYWORDS);
    KeywordsApart(KEYWORDS[j]);
    forall k | 0 <= k < |KEYWORDS| ensures !HasKeyword(x[1..], KEYWORDS[k]) {
      assert Apart(KEYWORDS[j], KEYWORDS[k]);
      assert forall i | 0 <= i < |x| - 1 :: x[1..][i] == x[i + 1];
    }
    NoneOf(x[1..], KEYWORDS);
  }

  lemma PieceLostLetter(s: string, comma: nat, start: nat, end: nat)
    requires CutAt(s, comma, start) && !SpaceBehind(s, comma) && start <= end <= |s|
    ensures !IsClauseKeyword(s[start..end])
  {
    var x := s[comma + 1..];
    LostLetter(x);
    KeywordShape(x);
    assert x[1] == s[comma + 2] && x[1..] == s[comma + 2..];
    KeywordExtends(s[start..end], s[end..], KEYWORDS);
    assert s[start..] == s[start..end] + s[end..];
  }

  /** A clause after the first starts with its keyword exactly if its comma has a space behind it. */
  lemma ClauseHasKeyword(s: string, cs: seq<string>, starts: seq<nat>, ends: seq<nat>, j: nat)
    requires CutFrom(s, 0, cs, starts, ends) && 0 < j < |cs|
    ensures IsClauseKeyword(cs[j]) <==> SpaceBehind(s, ends[j - 1])
  {
    assert j + 1 < |cs| ==> CutAt(s, ends[j], starts[j + 1]);
    if SpaceBehind(s, ends[j - 1]) {
      PieceHasKeyword(s, ends[j - 1], starts[j], ends[j]);
    } else {
      PieceLostLetter(s, ends[j - 1], starts[j], ends[j]);
    }
  }

  /** How a text falls into clauses: one more than it has clause commas, each without one of its own. */
  ghost predicate FallsInto(s: string, cs: seq<string>) {
    && |cs| == 1 + |ClauseCommas(s)|
    && (forall j, i | 0 <= j < |cs| && 0 <= i < |cs[j]| :: !ClauseComma(cs[j], i))
    && ((forall i <- ClauseCommas(s) :: SpaceBehind(s, i)) <==> forall j | 0 < j < |cs| :: IsClauseKeyword(cs[j]))
    && exists starts, ends :: CutFrom(s, 0, cs, starts, ends)
  }

  lemma KeywordsIffSpaced(s: string, cs: seq<string>, starts: seq<nat>, ends: seq<nat>)
    requires CutFrom(s, 0, cs, starts, ends)
    ensures (forall i <- ClauseCommas(s) :: SpaceBehind(s, i)) <==> forall j | 0 < j < |cs| :: IsClauseKeyword(cs[j])
  {
    forall j | 0 < j < |cs| ensures IsClauseKeyword(cs[j]) <==> SpaceBehind(s, ends[j - 1]) {
      ClauseHasKeyword(s, cs, starts, ends, j);
    }
    forall j | 0 <= j < |cs| - 1 ensures ends[j] in ClauseCommas(s) {
      assert CutAt(s, ends[j], starts[j + 1]);
    }
    if forall j | 0 < j < |cs| :: IsClauseKeyword(cs[j]) {
      forall i | i in ClauseCommas(s) ensures SpaceBehind(s, i) {
        assert IsCut(ends, i);
        var n :| 0 <= n < |ends| - 1 && ends[n] == i;
        assert IsClauseKeyword(cs[n + 1]);
      }
    }
  }

  /** The splitter's clauses are those of the text, every text. */
  lemma ClausesFall(s: string)
    ensures FallsInto(s, Clauses(s, 0))
  {
    var cs := Clauses(s, 0);
    assert s[0..] == s && s[..0] == "";
    var starts, ends := ClausesAreCut(s, 0);
    ClauseCount(s, cs, starts, ends);
    forall j, i | 0 <= j < |cs| && 0 <= i < |cs[j]| ensures !ClauseComma(cs[j], i) {
      ClauseIsWhole(s, cs, starts, ends, j, i);
    }
    KeywordsIffSpaced(s, cs, starts, ends);
  }

  lemma {:induction false} SkipRun(s: string, i: nat, j: nat)
    requires i <= j < |s| && (forall k | i <= k < j :: s[k] == ' ') && s[j] != ' '
    ensures SkipSpaces(s[i..]) == s[j..]
    decreases j - i
  {
    if i < j {
      assert s[i..][1..] == s[i + 1..];
      SkipRun(s, i + 1, j);
    }
  }

  /** Index of the first occurrence of two characters in a row, or -1. */
  method IndexOfPair(s: string, a: char, b: char) returns (r: int)
    ensures r == -1 || (0 <= r < |s| - 1 && s[r] == a && s[r + 1] == b)
    ensures forall i | 0 <= i < |s| - 1 && (r == -1 || i < r) :: !(s[i] == a && s[i + 1] == b)
  {
    var i := 0;
    while i + 1 < |s|
      invariant 0 <= i <= |s|
      invariant forall k | 0 <= k < i && k + 1 < |s| :: !(s[k] == a && s[k + 1] == b)
    {
      if s[i] == a && s[i + 1] == b {
        return i;
      }
      i := i + 1;
    }
    r := -1;
  }

  /** The first backtick-and-space lies beyond the ALTER TABLE prefix and ends just before `end`. */
  ghost predicate QuotedEnd(ddl: string, end: int) {
    && 14 < end <= |ddl| && ddl[end - 2] == '`' && ddl[end - 1] == ' '
    && forall i | 0 <= i < end - 2 :: !(ddl[i] == '`' && ddl[i + 1] == ' ')
  }

  /** The first space after the ALTER TABLE prefix is just before `end`. */
  ghost predicate PlainEnd(ddl: string, end: int) {
    && HasKeyword(ddl, "ALTER TABLE ") && 12 < end <= |ddl| && ddl[end - 1] == ' '
    && forall i | 12 <= i < end - 1 :: ddl[i] != ' '
  }

  /** Where the table part ends: behind the quoted name, else behind the plain one, else at the end of the text. */
  ghost predicate TableEnds(ddl: string, end: int) {
    || QuotedEnd(ddl, end)
    || ((forall e :: !QuotedEnd(ddl, e)) && PlainEnd(ddl, end))
    || ((forall e :: !QuotedEnd(ddl, e) && !PlainEnd(ddl, e)) && end == |ddl|)
  }

  /** A text has one such place. */
  lemma TableEndsOnce(ddl: string, a: int, b: int)
    requires TableEnds(ddl, a) && TableEnds(ddl, b)
    ensures a == b
  {
    if QuotedEnd(ddl, a) {
      assert ddl[a - 2] == '`' && ddl[b - 2] == '`';
    }
  }

  method FindTableNameEnd(ddl: string) returns (end: nat)
    ensures end <= |ddl|
    ensures TableEnds(ddl, end)
  {
    var quoted := IndexOfPair(ddl, '`', ' ');
    if quoted != -1 && quoted > 12 {
      return quoted + 2;
    }
    if |ddl| > 12 && HasKeyword(ddl, "ALTER TABLE ") {
      var rest := ddl[12..];
      var space := IndexOf(rest, ' ');
      assert forall i | 12 <= i < |ddl| :: ddl[i] == rest[i - 12];
      if space != -1 {
        assert forall i | 0 <= i < space :: rest[..space][i] == rest[i];
        return 12 + space + 1;
      }
    }
    end := |ddl|;
  }

  /**
   Joining the split statement gives it back exactly when every clause comma after the table name has one space behind
   it.
   */
  method SplitAlterClauses(ddl: string) returns (clauses: seq<string>, end: nat)
    ensures end <= |ddl| && TableEnds(ddl, end)
    ensures end == |ddl| ==> clauses == [ddl]
    ensures var rest := ddl[end..];
            Join(", ", clauses) == ddl <==> forall i | 0 <= i < |rest| && ClauseComma(rest, i) :: OneSpaceAfter(rest, i)
    // the first clause carries the table part, and behind it the text is cut exactly at its clause commas
    ensures end < |ddl| ==> && |clauses| == 1 + |ClauseCommas(ddl[end..])|
                            && ddl[..end] <= clauses[0] && FallsInto(ddl[end..], [clauses[0][end..]] + clauses[1..])
  {
    end := FindTableNameEnd(ddl);
    if end >= |ddl| {
      return [ddl], end;
    }
    var rest := ddl[end..];
    clauses := SplitClauses(rest);
    JoinClausesIff(rest, 0);
    OneSpacedIff(rest, 0);
    assert rest[0..] == rest && rest[..0] == "";
    JoinHead(", ", ddl[..end], clauses[0], clauses[1..]);
    assert [clauses[0]] + clauses[1..] == clauses;
    PrefixIff(ddl, end, Join(", ", clauses));
    ClausesFall(rest);
    ghost var cut := clauses;
    clauses := [ddl[..end] + clauses[0]] + clauses[1..];
    assert [clauses[0][end..]] + clauses[1..] == cut;
  }

  lemma PrefixIff(s: string, n: nat, x: string)
    requires n <= |s|
    ensures s[..n] + x == s <==> x == s[n..]
  {
    assert (s[..n] + x)[n..] == x && s == s[..n] + s[n..];
  }

  /** Without a space behind the comma the keyword's first letter is lost, so the statement is not given back. */
  lemma MissingSpaceLosesLetter(s: string, d: int)
    requires |s| > 1 && Separates(s, d) && s[1] != ' '
    ensures Clauses(s, d) == [""] + Clauses(s[2..], 0) && !OneSpaced(s, d)
  {
    KeywordShape(SkipSpaces(s[1..]));
    KeywordBehind(s);
    assert s[1..][1..] == s[2..] && s[2] != ' ';
  }

  lemma {:induction false} Unseparated(s: string, d: int)
    requires ',' !in s
    ensures Clauses(s, d) == [s]
  {
    if s != "" {
      Unseparated(s[1..], d + Step(s[0]));
      assert [s[0]] + s[1..] == s;
    }
  }

  lemma AddIsKeyword(s: string)
    requires |s| > 3 && s[0] == 'A' && s[1] == 'D' && s[2] == 'D' && s[3] == ' '
    ensures IsClauseKeyword(s)
  {
    assert KEYWORDS[0] == "ADD ";
  }

  lemma MissingSpaceExample(column: string)
    requires ',' !in column
    ensures Clauses(",ADD " + column, 0) == ["", "DD " + column]
  {
    var s := ",ADD " + column;
    AddIsKeyword(s[1..]);
    MissingSpaceLosesLetter(s, 0);
    assert s[2..] == "DD " + column;
    Unseparated(s[2..], 0);
  }
}
