/** How a chat message becomes a command: the "auto" prefix, trimming,
    splitting on runs of spaces, lower-casing the first word, and choosing
    the handler branches whose guards hold. */
module Commands {
  import Types

  const Prefix := "auto"

  /** The characters a JavaScript `trim()` strips: white space and line
      terminators. */
  predicate IsTrimmable(c: char) {
    || c == '\t' || c == '\n' || c == '\U{B}' || c == '\U{C}' || c == '\r' || c == ' '
    || c == '\U{A0}' || c == '\U{1680}' || ('\U{2000}' <= c <= '\U{200A}')
    || c == '\U{2028}' || c == '\U{2029}' || c == '\U{202F}' || c == '\U{205F}'
    || c == '\U{3000}' || c == '\U{FEFF}'
  }

  /** `s` without its leading trimmable characters. */
  function TrimStart(s: string): (r: string)
    ensures |r| <= |s| && r == s[|s| - |r|..]
    ensures forall k :: 0 <= k < |s| - |r| ==> IsTrimmable(s[k])
    ensures r == [] || !IsTrimmable(r[0])
  {
    if s != [] && IsTrimmable(s[0]) then TrimStart(s[1..]) else s
  }

  /** `s` without its trailing trimmable characters. */
  function TrimEnd(s: string): (r: string)
    ensures |r| <= |s| && r == s[..|r|]
    ensures forall k :: |r| <= k < |s| ==> IsTrimmable(s[k])
    ensures r == [] || !IsTrimmable(r[|r| - 1])
  {
    if s != [] && IsTrimmable(s[|s| - 1]) then TrimEnd(s[..|s| - 1]) else s
  }

  /** `r` is the slice `s[a..b]`, and every character of `s` outside it is
      trimmable. */
  predicate TrimmedSlice(s: string, r: string, a: int, b: int) {
    && 0 <= a <= b <= |s| && r == s[a..b]
    && (forall k :: 0 <= k < a ==> IsTrimmable(s[k]))
    && (forall k :: b <= k < |s| ==> IsTrimmable(s[k]))
  }

  /** `s` with its leading and trailing trimmable characters removed: the
      slice of `s` outside of which every character is trimmable, and whose
      ends are not. */
  function Trim(s: string): (r: string)
    ensures exists a, b :: TrimmedSlice(s, r, a, b)
    ensures r == [] || (!IsTrimmable(r[0]) && !IsTrimmable(r[|r| - 1]))
  {
    var t := TrimStart(s);
    var r := TrimEnd(t);
    SliceOfTrimmed(s, t, r);
    r
  }

  /** Trimming a prefix off `s` and then a suffix off what is left leaves
      a slice of `s` with trimmable characters on both sides. */
  lemma {:induction false} SliceOfTrimmed(s: string, t: string, r: string)
    requires |t| <= |s| && t == s[|s| - |t|..]
    requires forall k :: 0 <= k < |s| - |t| ==> IsTrimmable(s[k])
    requires |r| <= |t| && r == t[..|r|]
    requires forall k :: |r| <= k < |t| ==> IsTrimmable(t[k])
    ensures TrimmedSlice(s, r, |s| - |t|, |s| - |t| + |r|)
  {
    var a := |s| - |t|;
    forall k | a + |r| <= k < |s| ensures IsTrimmable(s[k]) {
      assert s[k] == t[k - a];
    }
  }

  /** The longest prefix of `s` without a space. */
  function TakeWord(s: string): (w: string)
    ensures |w| <= |s| && w == s[..|w|]
    ensures ' ' !in w
    ensures |w| == |s| || s[|w|] == ' '
  {
    if s == [] || s[0] == ' ' then [] else [s[0]] + TakeWord(s[1..])
  }

  /** `s` without its leading spaces. */
  function DropSpaces(s: string): (r: string)
    ensures |r| <= |s| && r == s[|s| - |r|..]
    ensures forall k :: 0 <= k < |s| - |r| ==> s[k] == ' '
    ensures r == [] || r[0] != ' '
    ensures s != [] && s[0] == ' ' ==> |r| < |s|
  {
    if s != [] && s[0] == ' ' then DropSpaces(s[1..]) else s
  }

  /** `s.split(/ +/)`: the pieces between maximal runs of spaces. */
  function Split(s: string): (r: seq<string>)
    ensures |r| >= 1
    ensures forall k :: 0 <= k < |r| ==> ' ' !in r[k]
    ensures r[0] == TakeWord(s)
    decreases |s|
  {
    var w := TakeWord(s);
    if |w| == |s| then [w]
    else
      var rest := DropSpaces(s[|w|..]);
      var tail := Split(rest);
      [w] + tail
  }

  /** The characters of `s` other than spaces. */
  function NonSpaces(s: string): string {
    if s == [] then [] else (if s[0] == ' ' then [] else [s[0]]) + NonSpaces(s[1..])
  }

  function Concat(ws: seq<string>): string {
    if ws == [] then [] else ws[0] + Concat(ws[1..])
  }

  lemma {:induction false} NonSpacesAppend(a: string, b: string)
    ensures NonSpaces(a + b) == NonSpaces(a) + NonSpaces(b)
  {
    if a != [] {
      assert (a + b)[1..] == a[1..] + b;
      NonSpacesAppend(a[1..], b);
    } else {
      assert a + b == b;
    }
  }

  lemma {:induction false} NonSpacesOfSpaces(s: string)
    requires forall k :: 0 <= k < |s| ==> s[k] == ' '
    ensures NonSpaces(s) == []
  {
    if s != [] { NonSpacesOfSpaces(s[1..]); }
  }

  lemma {:induction false} NonSpacesOfWord(s: string)
    requires ' ' !in s
    ensures NonSpaces(s) == s
  {
    if s != [] {
      assert ' ' !in s[1..] by {
        forall k | 0 <= k < |s[1..]| ensures s[1..][k] != ' ' { assert s[1..][k] == s[k + 1]; }
      }
      NonSpacesOfWord(s[1..]);
    }
  }

  /** One step of Split: the first word, then the split of what follows
      the run of spaces after it. */
  lemma SplitStep(s: string)
    requires |TakeWord(s)| < |s|
    ensures Split(s) == [TakeWord(s)] + Split(DropSpaces(s[|TakeWord(s)|..]))
  {
  }

  lemma ConcatCons(w: string, ws: seq<string>)
    ensures Concat([w] + ws) == w + Concat(ws)
  {
    assert ([w] + ws)[1..] == ws;
  }

  /** What Split drops between the first word and the rest is spaces only. */
  lemma {:induction false} NonSpacesAfterWord(s: string)
    requires |TakeWord(s)| < |s|
    ensures NonSpaces(s) == TakeWord(s) + NonSpaces(DropSpaces(s[|TakeWord(s)|..]))
  {
    var w := TakeWord(s);
    var tail := s[|w|..];
    var rest := DropSpaces(tail);
    var gap := tail[..|tail| - |rest|];
    assert tail == gap + rest;
    assert s == w + tail;
    assert forall k :: 0 <= k < |gap| ==> gap[k] == ' ' by {
      forall k | 0 <= k < |gap| ensures gap[k] == ' ' { assert gap[k] == tail[k]; }
    }
    NonSpacesOfWord(w);
    NonSpacesOfSpaces(gap);
    NonSpacesAppend(gap, rest);
    assert NonSpaces(tail) == NonSpaces(rest);
    NonSpacesAppend(w, tail);
    assert NonSpaces(s) == w + NonSpaces(rest);
  }

  /** Splitting loses exactly the spaces: the pieces, put back together,
      are the input with every space removed. */
  lemma {:induction false} SplitKeepsNonSpaces(s: string)
    ensures Concat(Split(s)) == NonSpaces(s)
    decreases |s|
  {
    var w := TakeWord(s);
    if |w| == |s| {
      NonSpacesOfWord(w);
      assert s == w;
      ConcatCons(w, []);
    } else {
      var rest := DropSpaces(s[|w|..]);
      NonSpacesAfterWord(s);
      SplitKeepsNonSpaces(rest);
      SplitStep(s);
      ConcatCons(w, Split(rest));
    }
  }

  /** Splitting a non-empty text that neither starts nor ends with a space
      gives only non-empty pieces; the empty text gives the one empty piece. */
  lemma {:induction false} SplitTrimmedPieces(s: string)
    requires s == [] || (s[0] != ' ' && s[|s| - 1] != ' ')
    ensures s == [] ==> Split(s) == [[]]
    ensures s != [] ==> forall k :: 0 <= k < |Split(s)| ==> Split(s)[k] != []
    decreases |s|
  {
    if s != [] {
      var w := TakeWord(s);
      if |w| != |s| {
        var tail := s[|w|..];
        var rest := DropSpaces(tail);
        assert tail[|tail| - 1] == s[|s| - 1];
        assert rest != [];
        assert rest[|rest| - 1] == s[|s| - 1];
        SplitTrimmedPieces(rest);
        SplitStep(s);
      }
    }
  }

  /** A non-empty run of spaces. */
  predicate IsGap(g: string) {
    g != [] && forall k :: 0 <= k < |g| ==> g[k] == ' '
  }

  /** The pieces `ws` with the gaps `gs` between them. */
  function Interleave(ws: seq<string>, gs: seq<string>): string
    requires |ws| == |gs| + 1
  {
    if gs == [] then ws[0] else ws[0] + gs[0] + Interleave(ws[1..], gs[1..])
  }

  /** `s` reads as the space-free pieces `ws` separated by the runs of spaces
      `gs`, and no piece strictly between two gaps is empty. */
  predicate SplitsAs(s: string, ws: seq<string>, gs: seq<string>) {
    && |ws| == |gs| + 1
    && (forall i :: 0 <= i < |ws| ==> ' ' !in ws[i])
    && (forall i :: 0 < i < |ws| - 1 ==> ws[i] != [])
    && (forall i :: 0 <= i < |gs| ==> IsGap(gs[i]))
    && Interleave(ws, gs) == s
  }

  /** The first word of a space-free word followed by nothing or a space is
      that word. */
  lemma {:induction false} TakeWordOfWord(w: string, t: string)
    requires ' ' !in w
    requires t == [] || t[0] == ' '
    ensures TakeWord(w + t) == w
  {
    if w != [] {
      assert (w + t)[1..] == w[1..] + t;
      assert ' ' !in w[1..] by {
        forall k | 0 <= k < |w[1..]| ensures w[1..][k] != ' ' { assert w[1..][k] == w[k + 1]; }
      }
      TakeWordOfWord(w[1..], t);
    } else {
      assert w + t == t;
    }
  }

  /** Dropping the spaces in front of a text that does not start with one
      leaves that text. */
  lemma {:induction false} DropSpacesOfGap(g: string, t: string)
    requires forall k :: 0 <= k < |g| ==> g[k] == ' '
    requires t == [] || t[0] != ' '
    ensures DropSpaces(g + t) == t
  {
    if g != [] {
      assert (g + t)[1..] == g[1..] + t;
      DropSpacesOfGap(g[1..], t);
    } else {
      assert g + t == t;
    }
  }

  /** A word, a gap and a reading of the rest make a reading of the whole. */
  lemma SplitsAsCons(s: string, w: string, g: string, rest: string, ws: seq<string>, gs: seq<string>)
    requires SplitsAs(rest, ws, gs)
    requires ' ' !in w && IsGap(g) && s == w + g + rest
    requires |ws| > 1 ==> ws[0] != []
    ensures SplitsAs(s, [w] + ws, [g] + gs)
  {
    assert ([w] + ws)[1..] == ws && ([g] + gs)[1..] == gs;
    forall i | 0 < i < |ws| + 1 ensures ([w] + ws)[i] == ws[i - 1] { }
  }

  /** A reading with at least one gap is its first word, its first gap and
      a reading of what follows, which does not start with a space. */
  lemma SplitsAsTail(s: string, ws: seq<string>, gs: seq<string>)
    requires SplitsAs(s, ws, gs) && gs != []
    ensures var rest := Interleave(ws[1..], gs[1..]);
            && s == ws[0] + (gs[0] + rest)
            && SplitsAs(rest, ws[1..], gs[1..])
            && (rest == [] || rest[0] != ' ')
  {
    var rest := Interleave(ws[1..], gs[1..]);
    assert s == ws[0] + gs[0] + rest;
    forall i | 0 <= i < |ws| - 1 ensures ' ' !in ws[1..][i] && (0 < i < |ws| - 2 ==> ws[1..][i] != []) {
      assert ws[1..][i] == ws[i + 1];
    }
    forall i | 0 <= i < |gs| - 1 ensures IsGap(gs[1..][i]) { assert gs[1..][i] == gs[i + 1]; }
    if |gs| > 1 {
      assert ws[1..][0] == ws[1] && ws[1] != [];
    }
  }

  /** Between the first word of `s` and what Split reads next lies a
      non-empty run of spaces. */
  lemma {:induction false} GapAfterWord(s: string)
    requires |TakeWord(s)| < |s|
    ensures var w := TakeWord(s);
            var rest := DropSpaces(s[|w|..]);
            && |w| < |s| - |rest|
            && IsGap(s[|w|..|s| - |rest|])
            && s == w + s[|w|..|s| - |rest|] + rest
  {
    var w := TakeWord(s);
    var tail := s[|w|..];
    SpacesBetween(s, w, tail, DropSpaces(tail));
  }

  /** A prefix `w` of `s` and a suffix `rest` of the remainder `tail`, with
      only spaces (at least one) between them. */
  lemma SpacesBetween(s: string, w: string, tail: string, rest: string)
    requires |w| <= |s| && w == s[..|w|] && tail == s[|w|..]
    requires |rest| < |tail| && rest == tail[|tail| - |rest|..]
    requires forall k :: 0 <= k < |tail| - |rest| ==> tail[k] == ' '
    ensures |w| < |s| - |rest|
    ensures IsGap(s[|w|..|s| - |rest|])
    ensures s == w + s[|w|..|s| - |rest|] + rest
  {
    var gap := s[|w|..|s| - |rest|];
    forall k | 0 <= k < |gap| ensures gap[k] == ' ' { assert gap[k] == tail[k]; }
    assert s == w + tail;
    assert tail == gap + rest;
  }

  /** The first word of a text that does not start with a space is empty
      only when the text is. */
  lemma FirstWordOfUnspaced(s: string)
    requires s == [] || s[0] != ' '
    ensures |Split(s)| > 1 ==> Split(s)[0] != []
  {
    if s != [] {
      assert TakeWord(s) != [] by { assert s[0] != ' '; }
    }
  }

  /** The split of `s` rebuilds `s`: its pieces, with some non-empty runs of
      spaces between them, are `s` again, and no inner piece is empty. */
  lemma {:induction false} SplitRebuilds(s: string)
    ensures exists gs :: SplitsAs(s, Split(s), gs)
  {
    SplitRebuildsWith(s);
  }

  /** The runs of spaces Split steps over, in order. */
  ghost function GapsOf(s: string): seq<string>
    decreases |s|
  {
    var w := TakeWord(s);
    if |w| == |s| then []
    else
      var rest := DropSpaces(s[|w|..]);
      [s[|w|..|s| - |rest|]] + GapsOf(rest)
  }

  lemma {:induction false} SplitRebuildsWith(s: string)
    ensures SplitsAs(s, Split(s), GapsOf(s))
    decreases |s|
  {
    if |TakeWord(s)| == |s| {
      SplitOfWord(s);
    } else {
      var rest := DropSpaces(s[|TakeWord(s)|..]);
      SplitRebuildsWith(rest);
      SplitRebuildsStep(s);
    }
  }

  /** A text without a space splits into itself alone. */
  lemma SplitOfWord(s: string)
    requires |TakeWord(s)| == |s|
    ensures SplitsAs(s, Split(s), [])
  {
    assert s == TakeWord(s);
  }

  lemma {:induction false} SplitRebuildsStep(s: string)
    requires |TakeWord(s)| < |s|
    requires SplitsAs(DropSpaces(s[|TakeWord(s)|..]), Split(DropSpaces(s[|TakeWord(s)|..])), GapsOf(DropSpaces(s[|TakeWord(s)|..])))
    ensures SplitsAs(s, Split(s), GapsOf(s))
  {
    var w := TakeWord(s);
    var rest := DropSpaces(s[|w|..]);
    GapAfterWord(s);
    SplitStep(s);
    FirstWordOfUnspaced(rest);
    SplitsAsCons(s, w, s[|w|..|s| - |rest|], rest, Split(rest), GapsOf(rest));
  }

  /** A space-free word, then a run of spaces, then a text that does not
      start with a space: the split is the word, then the split of that text. */
  lemma {:induction false} SplitOfWordAndGap(s: string, w: string, g: string, rest: string)
    requires ' ' !in w && IsGap(g) && (rest == [] || rest[0] != ' ')
    requires s == w + (g + rest)
    ensures Split(s) == [w] + Split(rest)
  {
    TakeWordOfWord(w, g + rest);
    assert s[|w|..] == g + rest;
    DropSpacesOfGap(g, rest);
    SplitStep(s);
  }

  /** The other direction: any reading of `s` as space-free pieces between
      runs of spaces, with no empty inner piece, is the split of `s`. So the
      split is exactly the pieces between the maximal runs of spaces. */
  lemma {:induction false} SplitUnique(s: string, ws: seq<string>, gs: seq<string>)
    requires SplitsAs(s, ws, gs)
    ensures Split(s) == ws
    decreases |gs|
  {
    if gs == [] {
      assert s == ws[0] + [];
      TakeWordOfWord(ws[0], []);
    } else {
      SplitsAsTail(s, ws, gs);
      SplitUnique(Interleave(ws[1..], gs[1..]), ws[1..], gs[1..]);
      SplitUniqueStep(s, ws, gs);
    }
  }

  lemma SplitUniqueStep(s: string, ws: seq<string>, gs: seq<string>)
    requires SplitsAs(s, ws, gs) && gs != []
    requires Split(Interleave(ws[1..], gs[1..])) == ws[1..]
    ensures Split(s) == ws
  {
    var rest := Interleave(ws[1..], gs[1..]);
    SplitsAsTail(s, ws, gs);
    SplitOfWordAndGap(s, ws[0], gs[0], rest);
    assert ws == [ws[0]] + ws[1..];
  }

  /** ASCII upper-case letters mapped to lower case. */
  function LowerChar(c: char): char {
    if 'A' <= c <= 'Z' then (c as int - 'A' as int + 'a' as int) as char else c
  }

  function ToLower(s: string): (r: string)
    ensures |r| == |s|
    ensures forall k :: 0 <= k < |s| ==> r[k] == LowerChar(s[k])
  {
    seq(|s|, k requires 0 <= k < |s| => LowerChar(s[k]))
  }

  predicate StartsWith(s: string, p: string) {
    |p| <= |s| && s[..|p|] == p
  }

  /** A message addresses the command handler when it begins with the prefix. */
  predicate IsCommand(content: string) {
    StartsWith(content, Prefix)
  }

  /** The command word: the first piece after the prefix, lower-cased. */
  function CommandOf(content: string): (c: string)
    requires IsCommand(content)
    ensures c == ToLower(TakeWord(Trim(content[|Prefix|..])))
    ensures ' ' !in c
  {
    var w := Split(Trim(content[|Prefix|..]))[0];
    assert forall k :: 0 <= k < |w| ==> ToLower(w)[k] != ' ';
    ToLower(w)
  }

  /** The handler branches, in the order the command handler tests them. */
  datatype Branch =
    | Help | Status | Ping | Level | Leaderboard | Richest | Balance
    | Donate | Daily | Mine | Chop | Fish | Bag | Prices | Sell

  /** The order in which the command handler tests its branches. */
  const BranchOrder: seq<Branch> :=
    [Help, Status, Ping, Level, Leaderboard, Richest, Balance,
     Donate, Daily, Mine, Chop, Fish, Bag, Prices, Sell]

  /** The guard of each branch, on the command word. */
  predicate Guard(b: Branch, c: string) {
    match b
    case Help => c == "help"
    case Status => c == "status"
    case Ping => c == "ping"
    case Level => c == "level"
    case Leaderboard => c == "leaderboard" || c == "lb"
    case Richest => c == "rich" || c == "baltop"
    case Balance => c == "bal"
    case Donate => StartsWith(c, "donate ")
    case Daily => c == "daily"
    case Mine => c == "mine"
    case Chop => c == "chop"
    case Fish => c == "fish"
    case Bag => c == "bag"
    case Prices => c == "prices"
    case Sell => StartsWith(c, "sell")
  }

  /** The branches of `bs` whose guard holds, in order. The guards form a
      chain of independent `if`s, not an `else if` chain, so in principle
      several could run. */
  function Firing(c: string, bs: seq<Branch>): (r: seq<Branch>)
    ensures forall b :: b in r <==> b in bs && Guard(b, c)
  {
    if bs == [] then []
    else (if Guard(bs[0], c) then [bs[0]] else []) + Firing(c, bs[1..])
  }

  function Branches(c: string): seq<Branch> {
    Firing(c, BranchOrder)
  }

  /** No command word satisfies two different guards. */
  lemma GuardsExclusive(c: string, b1: Branch, b2: Branch)
    requires Guard(b1, c) && Guard(b2, c)
    ensures b1 == b2
  {
    if b1 == Donate || b2 == Donate {
      assert c[..7] == "donate ";
      assert c[0] == 'd' && c[1] == 'o' && c[6] == ' ';
    }
    if b1 == Sell || b2 == Sell {
      assert c[..4] == "sell";
      assert c[0] == 's' && c[1] == 'e';
    }
  }

  /** A command word without a space never passes the donate guard. */
  lemma NoSpaceNoDonate(c: string)
    requires ' ' !in c
    ensures !Guard(Donate, c)
  {
    if |c| >= 7 {
      assert c[..7][6] == c[6];
    }
  }

  /** The donate branch never runs: its guard asks for a space that a
      command word cannot contain. */
  lemma DonateUnreachable(content: string)
    requires IsCommand(content)
    ensures Donate !in Branches(CommandOf(content))
  {
    NoSpaceNoDonate(CommandOf(content));
  }

  /** The words of a sell command: everything from the tenth character on,
      trimmed and split; the first word names the item, the second (when
      present) the amount. */
  function SellArguments(content: string): (r: (string, Types.Option<string>))
    ensures ' ' !in r.0
    ensures r.1.Some? ==> ' ' !in r.1.value && r.1.value != []
    ensures r.0 == [] <==> Trim(if |content| >= 9 then content[9..] else []) == []
    ensures r.0 == [] ==> r.1.None?
    ensures var rest := Trim(if |content| >= 9 then content[9..] else []);
            && r.0 == TakeWord(rest)
            && (|r.0| < |rest| ==> r.1 == Types.Some(TakeWord(DropSpaces(rest[|r.0|..]))))
            && (|r.0| == |rest| ==> r.1.None?)
  {
    var rest := Trim(if |content| >= 9 then content[9..] else []);
    var args := Split(rest);
    SplitTrimmedPieces(rest);
    (args[0], if |args| > 1 then Types.Some(args[1]) else Types.None)
  }
}
