/**
 The chat history put into a prompt: a window of recent messages and older decisions, cut to a token budget.
 */
module ChatHistory {
  datatype Role = User | Assistant | System

  datatype Message = Message(role: Role, content: string, changes: bool)

  const WINDOW: nat := 20
  const MAX_TOKENS: nat := 6000
  const HEADER := "## Historial de conversacion\n\n"

  /** `_count_tokens`. */
  function Tokens(text: string): nat {
    if |text| / 4 < 1 then 1 else |text| / 4
  }

  const BUDGET: int := MAX_TOKENS - Tokens(HEADER)

  function Label(role: Role): string {
    match role case User => "Usuario" case Assistant => "Asistente" case System => "Sistema"
  }

  /** `_format_one`; `sanitize` is the cleaning of user text. */
  function Line(sanitize: string -> string, m: Message): (s: string)
    ensures |s| >= 4
  {
    if m.role.User? then "**" + Label(m.role) + ":** <user_message>\n" + sanitize(m.content) + "\n</user_message>\n\n"
    else "**" + Label(m.role) + ":** " + m.content + "\n\n"
  }

  function Lines(sanitize: string -> string, ms: seq<Message>): (s: seq<string>)
    ensures |s| == |ms| && forall i :: 0 <= i < |ms| ==> s[i] == Line(sanitize, ms[i])
  {
    seq(|ms|, i requires 0 <= i < |ms| => Line(sanitize, ms[i]))
  }

  function Sum(lines: seq<string>): nat {
    if lines == [] then 0 else Tokens(lines[0]) + Sum(lines[1..])
  }

  function Concat(lines: seq<string>): string {
    if lines == [] then "" else lines[0] + Concat(lines[1..])
  }

  /** Messages older than the window that carry suggested changes. */
  function Changing(ms: seq<Message>): seq<Message> {
    if ms == [] then [] else (if ms[0].changes then [ms[0]] else []) + Changing(ms[1..])
  }

  function Decisions(ms: seq<Message>): seq<Message> {
    if |ms| <= WINDOW then [] else Changing(ms[..|ms| - WINDOW])
  }

  function Recent(ms: seq<Message>): seq<Message> {
    if |ms| <= WINDOW then ms else ms[|ms| - WINDOW..]
  }

  // ----- Which messages, and what is shown of them -----

  /** The window holds the last `WINDOW` messages, or all there are, in order. */
  lemma {:induction false} RecentAreLast(ms: seq<Message>)
    ensures |Recent(ms)| == if |ms| < WINDOW then |ms| else WINDOW
    ensures forall i :: 0 <= i < |Recent(ms)| ==> Recent(ms)[i] == ms[|ms| - |Recent(ms)| + i]
  {
    hide Changing, Decisions, Line, Lines;
    var recent := Recent(ms);
    forall i | 0 <= i < |recent| ensures recent[i] == ms[|ms| - |recent| + i] {
    }
  }

  /** `picks` are, in order, exactly the positions before `n` of messages that carry changes. */
  ghost predicate PickChanges(ms: seq<Message>, n: nat, picks: seq<nat>)
    requires n <= |ms|
  {
    && (forall i :: i in picks <==> 0 <= i < n && ms[i].changes)
    && (forall k, m :: 0 <= k < m < |picks| ==> picks[k] < picks[m])
  }

  /** `found` are the messages at the positions `picks`. */
  ghost predicate At(ms: seq<Message>, picks: seq<nat>, found: seq<Message>) {
    |found| == |picks| && forall k :: 0 <= k < |picks| ==> picks[k] < |ms| && found[k] == ms[picks[k]]
  }

  /** The decisions are the messages before the window that carry changes, each once and in order. */
  lemma DecisionsAreOlder(ms: seq<Message>) returns (picks: seq<nat>)
    ensures PickChanges(ms, |ms| - |Recent(ms)|, picks)
    ensures At(ms, picks, Decisions(ms))
  {
    if |ms| > WINDOW {
      picks := ChangingAre(ms, |ms| - WINDOW);
    } else {
      picks := [];
    }
  }

  lemma {:induction false} ChangingAre(ms: seq<Message>, n: nat) returns (picks: seq<nat>)
    requires n <= |ms|
    ensures PickChanges(ms, n, picks)
    ensures At(ms, picks, Changing(ms[..n]))
    decreases n
  {
    if n == 0 {
      picks := [];
      assert Changing(ms[..0]) == [];
    } else {
      picks := ChangingAre(ms, n - 1);
      assert ms[..n] == ms[..n - 1] + [ms[n - 1]];
      ChangingSnoc(ms[..n - 1], ms[n - 1]);
      hide Changing, PickChanges, At;
      OnePick(ms, n, picks);
      AtMore(ms, picks, Changing(ms[..n - 1]), n - 1);
      picks := picks + (if ms[n - 1].changes then [n - 1] else []);
    }
  }

  lemma AtMore(ms: seq<Message>, picks: seq<nat>, found: seq<Message>, i: nat)
    requires At(ms, picks, found) && i < |ms|
    ensures At(ms, picks + (if ms[i].changes then [i] else []), found + (if ms[i].changes then [ms[i]] else []))
  {
  }

  lemma OnePick(ms: seq<Message>, n: nat, picks: seq<nat>)
    requires 0 < n <= |ms| && PickChanges(ms, n - 1, picks)
    ensures PickChanges(ms, n, picks + (if ms[n - 1].changes then [n - 1] else []))
  {
    assert picks + [] == picks;
    if ms[n - 1].changes {
      var picks' := picks + [n - 1];
      assert forall i :: i in picks' <==> i in picks || i == n - 1;
      forall k, m | 0 <= k < m < |picks'| ensures picks'[k] < picks'[m] {
        assert picks[k] in picks;
      }
    }
  }

  lemma {:induction false} ChangingSnoc(ms: seq<Message>, m: Message)
    ensures Changing(ms + [m]) == Changing(ms) + (if m.changes then [m] else [])
  {
    var last := if m.changes then [m] else [];
    if ms == [] {
      assert [m][1..] == [] && [] + [m] == [m];
      assert Changing([m]) == last + [] && Changing([]) + last == last;
    } else {
      assert (ms + [m])[1..] == ms[1..] + [m];
      ChangingSnoc(ms[1..], m);
      hide Changing;
      ChangingFirst(ms);
      ChangingFirst(ms + [m]);
      Regroup(if ms[0].changes then [ms[0]] else [], Changing(ms[1..]), last);
    }
  }

  lemma ChangingFirst(ms: seq<Message>)
    requires ms != []
    ensures Changing(ms) == (if ms[0].changes then [ms[0]] else []) + Changing(ms[1..])
  {
  }

  lemma Regroup(a: seq<Message>, b: seq<Message>, c: seq<Message>)
    ensures a + (b + c) == a + b + c
  {
  }

  /** What is shown of a message: the text of a user only as it is cleaned, any other text as it is. */
  function Shown(sanitize: string -> string, m: Message): string {
    if m.role.User? then sanitize(m.content) else m.content
  }

  /** A line tells the role and what is shown of the message, and nothing else. */
  lemma LineTells(sanitize: string -> string, m: Message, m': Message)
    ensures Line(sanitize, m) == Line(sanitize, m')
            <==> m.role == m'.role && Shown(sanitize, m) == Shown(sanitize, m')
  {
    LineParts(sanitize, m);
    LineParts(sanitize, m');
    hide Line, Shown;
    if Line(sanitize, m) == Line(sanitize, m') {
      RoleShows(m.role, m'.role, Shown(sanitize, m) + Closing(m.role), Shown(sanitize, m') + Closing(m'.role));
      Cancel(Opening(m.role), Shown(sanitize, m), Shown(sanitize, m'), Closing(m.role));
    }
  }

  function Opening(role: Role): string {
    "**" + Label(role) + ":** " + (if role.User? then "<user_message>\n" else "")
  }

  function Closing(role: Role): string {
    (if role.User? then "\n</user_message>" else "") + "\n\n"
  }

  lemma LineParts(sanitize: string -> string, m: Message)
    ensures Line(sanitize, m) == Opening(m.role) + Shown(sanitize, m) + Closing(m.role)
    ensures Line(sanitize, m) == Opening(m.role) + (Shown(sanitize, m) + Closing(m.role))
  {
  }

  /** The labels differ in their first letter. */
  lemma RoleShows(role: Role, role': Role, rest: string, rest': string)
    requires Opening(role) + rest == Opening(role') + rest'
    ensures role == role'
  {
    assert (Opening(role) + rest)[2] == Label(role)[0] && (Opening(role') + rest')[2] == Label(role')[0];
  }

  lemma Cancel(before: string, x: string, y: string, after: string)
    requires before + x + after == before + y + after
    ensures x == y
  {
    assert |x| == |y|;
    assert x == (before + x + after)[|before|..|before| + |x|];
    assert y == (before + y + after)[|before|..|before| + |y|];
  }

  // ----- What is kept -----

  /** `kept` is the longest prefix of `lines` that fits beside `used` tokens. */
  ghost predicate LongestFit(lines: seq<string>, used: nat, kept: seq<string>) {
    && kept <= lines
    && (kept != [] ==> used + Sum(kept) <= BUDGET)
    && (|kept| < |lines| ==> used + Sum(lines[..|kept| + 1]) > BUDGET)
  }

  lemma {:induction false} SumSplits(a: seq<string>, b: seq<string>)
    ensures Sum(a + b) == Sum(a) + Sum(b) && Concat(a + b) == Concat(a) + Concat(b)
  {
    if a == [] {
      assert a + b == b;
    } else {
      assert (a + b)[1..] == a[1..] + b;
      SumSplits(a[1..], b);
    }
  }

  /** There is one longest fitting prefix, and it is everything exactly when everything fits. */
  lemma OneLongestFit(lines: seq<string>, used: nat, kept: seq<string>, other: seq<string>)
    requires LongestFit(lines, used, kept) && LongestFit(lines, used, other)
    ensures kept == other
    ensures lines != [] ==> (kept == lines <==> used + Sum(lines) <= BUDGET)
  {
    ShorterFits(lines, used, kept, other);
    ShorterFits(lines, used, other, kept);
    if |kept| < |lines| {
      SumSplits(lines[..|kept| + 1], lines[|kept| + 1..]);
      assert lines == lines[..|kept| + 1] + lines[|kept| + 1..];
    }
  }

  lemma ShorterFits(lines: seq<string>, used: nat, kept: seq<string>, other: seq<string>)
    requires LongestFit(lines, used, kept) && LongestFit(lines, used, other)
    ensures |kept| >= |other|
  {
    if |kept| < |other| {
      var more := lines[..|kept| + 1];
      assert other == more + other[|kept| + 1..];
      SumSplits(more, other[|kept| + 1..]);
    }
  }

  /** One of the two loops. */
  method Fill(lines: seq<string>, used: nat) returns (kept: seq<string>, used': nat)
    ensures LongestFit(lines, used, kept) && used' == used + Sum(kept)
  {
    kept, used' := [], used;
    for i := 0 to |lines|
      invariant kept == lines[..i] && used' == used + Sum(kept)
      invariant kept != [] ==> used' <= BUDGET
    {
      var tokens := Tokens(lines[i]);
      assert lines[..i + 1] == kept + [lines[i]];
      SumSplits(kept, [lines[i]]);
      if used' + tokens > BUDGET {
        return;
      }
      used' := used' + tokens;
      kept := kept + [lines[i]];
    }
  }

  /**
   `_format_chat_history`: the header, the longest fitting prefix of the older decisions, then the longest fitting
   prefix of the recent messages.
   */
  method FormatChatHistory(sanitize: string -> string, ms: seq<Message>)
    returns (text: string, decided: seq<string>, recent: seq<string>)
    ensures text == HEADER + Concat(decided) + Concat(recent)
    ensures LongestFit(Lines(sanitize, Decisions(ms)), Tokens(HEADER), decided)
    ensures LongestFit(Lines(sanitize, Recent(ms)), Tokens(HEADER) + Sum(decided), recent)
    ensures Tokens(HEADER) + Sum(decided) + Sum(recent) <= BUDGET
    ensures Tokens(HEADER) + Sum(decided) + Sum(recent) <= Tokens(text)
            < Tokens(HEADER) + Sum(decided) + Sum(recent) + 1 + |decided| + |recent|
  {
    assert Sum([]) == 0;
    hide Sum, Concat, Lines, Decisions, Recent, Line;
    var used := Tokens(HEADER);
    HeaderFits();
    hide Tokens;
    decided, used := Fill(Lines(sanitize, Decisions(ms)), used);
    recent, used := Fill(Lines(sanitize, Recent(ms)), used);
    text := HEADER + Concat(decided) + Concat(recent);
    KeptAreLines(sanitize, Decisions(ms), decided);
    KeptAreLines(sanitize, Recent(ms), recent);
    TextEstimate(HEADER, decided, recent);
  }

  lemma HeaderFits()
    ensures Tokens(HEADER) == 7 && BUDGET == 5993 && |HEADER| == 30
  {
  }

  lemma TextEstimate(header: string, decided: seq<string>, recent: seq<string>)
    requires |header| >= 4
    requires forall i :: 0 <= i < |decided| ==> |decided[i]| >= 4
    requires forall i :: 0 <= i < |recent| ==> |recent[i]| >= 4
    ensures Tokens(header) + Sum(decided) + Sum(recent) <= Tokens(header + Concat(decided) + Concat(recent))
            < Tokens(header) + Sum(decided) + Sum(recent) + 1 + |decided| + |recent|
  {
    hide Sum, Concat, Tokens;
    OnePiece(header);
    AllLong(header, decided, recent);
    JoinedEstimate([header] + (decided + recent));
    SumSplits([header], decided + recent);
    SumSplits(decided, recent);
    Nested(header, Concat(decided), Concat(recent));
  }

  lemma OnePiece(piece: string)
    ensures Concat([piece]) == piece && Sum([piece]) == Tokens(piece)
  {
    assert Sum([]) == 0 && Concat([]) == "";
    assert [piece][1..] == [];
  }

  lemma AllLong(header: string, decided: seq<string>, recent: seq<string>)
    requires |header| >= 4
    requires forall i :: 0 <= i < |decided| ==> |decided[i]| >= 4
    requires forall i :: 0 <= i < |recent| ==> |recent[i]| >= 4
    ensures var pieces := [header] + (decided + recent); forall i :: 0 <= i < |pieces| ==> |pieces[i]| >= 4
  {
  }

  lemma Nested(a: string, b: string, c: string)
    ensures a + (b + c) == a + b + c
  {
  }

  lemma KeptAreLines(sanitize: string -> string, ms: seq<Message>, kept: seq<string>)
    requires kept <= Lines(sanitize, ms)
    ensures forall i :: 0 <= i < |kept| ==> |kept[i]| >= 4
  {
    assert forall i :: 0 <= i < |kept| ==> kept[i] == Lines(sanitize, ms)[i];
  }

  /** Joining loses less than one token of estimate a piece, and never goes below the sum. */
  lemma {:induction false} JoinedEstimate(pieces: seq<string>)
    requires pieces != [] && forall i :: 0 <= i < |pieces| ==> |pieces[i]| >= 4
    ensures Sum(pieces) <= Tokens(Concat(pieces)) < Sum(pieces) + |pieces|
  {
    Lengths(pieces);
  }

  lemma {:induction false} Lengths(pieces: seq<string>)
    requires forall i :: 0 <= i < |pieces| ==> |pieces[i]| >= 4
    ensures 4 * Sum(pieces) <= |Concat(pieces)| <= 4 * Sum(pieces) + 3 * |pieces|
  {
    if pieces != [] {
      Lengths(pieces[1..]);
    }
  }

  /**
   The newest messages go first, not the oldest: whatever the history, if the recent messages do not all fit, the
   newest one is left out.
   */
  lemma NewestKeptIff(sanitize: string -> string, ms: seq<Message>, used: nat, kept: seq<string>)
    requires ms != [] && LongestFit(Lines(sanitize, Recent(ms)), used, kept)
    ensures |kept| == |Recent(ms)| <==> used + Sum(Lines(sanitize, Recent(ms))) <= BUDGET
  {
    OneLongestFit(Lines(sanitize, Recent(ms)), used, kept, kept);
  }

  /** Two long messages, of which either would fit alone: the older is kept, the newer is dropped. */
  lemma NewestIsDropped(sanitize: string -> string, oldest: string, newest: string, kept: seq<string>)
    requires |oldest| == |newest| == 16_000
    requires var ms := [Message(Assistant, oldest, false), Message(Assistant, newest, false)];
             LongestFit(Lines(sanitize, Recent(ms)), Tokens(HEADER), kept)
    ensures kept == [Line(sanitize, Message(Assistant, oldest, false))]
    ensures Tokens(HEADER) + Sum([Line(sanitize, Message(Assistant, newest, false))]) <= BUDGET
  {
    var old', new' := Message(Assistant, oldest, false), Message(Assistant, newest, false);
    var lines := Lines(sanitize, [old', new']);
    LongLine(sanitize, oldest);
    LongLine(sanitize, newest);
    HeaderFits();
    hide Tokens, Line;
    assert lines[..1] == [lines[0]] && lines[..2] == [lines[0]] + [lines[1]];
    SumSplits([lines[0]], [lines[1]]);
    assert Recent([old', new']) == [old', new'];
    assert LongestFit(lines, Tokens(HEADER), [lines[0]]);
    OneLongestFit(lines, Tokens(HEADER), kept, [lines[0]]);
  }

  lemma LongLine(sanitize: string -> string, text: string)
    requires |text| == 16_000
    ensures Tokens(Line(sanitize, Message(Assistant, text, false))) == 4004
  {
    assert |"**" + Label(Assistant) + ":** "| == 15;
  }
}
