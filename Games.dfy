/** The wellness-games screen: a memory-matching puzzle, a Simon colour game,
    a timed focus game, and the statistics record all three write to.
    Random choices (the deck shuffle, Simon's colours, the focus points) are
    parameters; timer callbacks are explicit operations. */
module Games {
  import opened Common

  const MemoryEmojis: seq<string> := ["🌸", "🌺", "🌻", "🌷", "🌹", "🌊", "☀️", "🌙"]

  /** Number of Simon colour buttons. */
  const ColorCount: nat := 6

  function Max(a: int, b: int): int {
    if a >= b then a else b
  }

  // ------------------------------------------------------------ statistics

  datatype Stats = Stats(memoryBest: nat, simonBest: nat, gamesPlayed: nat, totalScore: nat)

  const NoStats := Stats(0, 0, 0, 0)

  /** `saveStats` after the last pair of a memory game is matched. */
  function MemoryWon(st: Stats, finalScore: nat): (r: Stats)
    ensures r.memoryBest >= st.memoryBest && r.memoryBest >= finalScore
    ensures r.memoryBest == st.memoryBest || r.memoryBest == finalScore
    ensures r.simonBest == st.simonBest
    ensures r.gamesPlayed == st.gamesPlayed + 1 && r.totalScore == st.totalScore + finalScore
  {
    st.(memoryBest := Max(st.memoryBest, finalScore), gamesPlayed := st.gamesPlayed + 1,
        totalScore := st.totalScore + finalScore)
  }

  /** `saveStats` after a wrong Simon press. */
  function SimonLost(st: Stats, score: nat): (r: Stats)
    ensures r.simonBest >= st.simonBest && r.simonBest >= score
    ensures r.simonBest == st.simonBest || r.simonBest == score
    ensures r.memoryBest == st.memoryBest
    ensures r.gamesPlayed == st.gamesPlayed + 1 && r.totalScore == st.totalScore + score
  {
    st.(simonBest := Max(st.simonBest, score), gamesPlayed := st.gamesPlayed + 1,
        totalScore := st.totalScore + score)
  }

  /** `saveStats` when the focus countdown runs out: no best score is kept. */
  function FocusEnded(st: Stats, score: nat): (r: Stats)
    ensures r.memoryBest == st.memoryBest && r.simonBest == st.simonBest
    ensures r.gamesPlayed == st.gamesPlayed + 1 && r.totalScore == st.totalScore + score
  {
    st.(gamesPlayed := st.gamesPlayed + 1, totalScore := st.totalScore + score)
  }

  /** How a game ended, with the score it saved. */
  datatype Outcome = MemoryWin(score: nat) | SimonOver(score: nat) | FocusOver(score: nat)

  function Record(st: Stats, o: Outcome): Stats {
    match o
    case MemoryWin(s) => MemoryWon(st, s)
    case SimonOver(s) => SimonLost(st, s)
    case FocusOver(s) => FocusEnded(st, s)
  }

  function RecordAll(st: Stats, os: seq<Outcome>): Stats
    decreases |os|
  {
    if os == [] then st else RecordAll(Record(st, os[0]), os[1..])
  }

  function ScoreSum(os: seq<Outcome>): nat {
    if os == [] then 0 else os[0].score + ScoreSum(os[1..])
  }

  /** Over any run of games: `gamesPlayed` counts them, `totalScore` adds up
      their scores, and each best score bounds every score of its game. */
  lemma {:induction false} RecordAllTotals(st: Stats, os: seq<Outcome>)
    ensures var r := RecordAll(st, os);
      r.gamesPlayed == st.gamesPlayed + |os| && r.totalScore == st.totalScore + ScoreSum(os)
      && r.memoryBest >= st.memoryBest && r.simonBest >= st.simonBest
      && (forall k :: 0 <= k < |os| && os[k].MemoryWin? ==> r.memoryBest >= os[k].score)
      && (forall k :: 0 <= k < |os| && os[k].SimonOver? ==> r.simonBest >= os[k].score)
    decreases |os|
  {
    if os != [] {
      RecordAllTotals(Record(st, os[0]), os[1..]);
      var r := RecordAll(st, os);
      forall k | 1 <= k < |os| && os[k].MemoryWin?
        ensures r.memoryBest >= os[k].score
      {
        assert os[k] == os[1..][k - 1];
      }
      forall k | 1 <= k < |os| && os[k].SimonOver?
        ensures r.simonBest >= os[k].score
      {
        assert os[k] == os[1..][k - 1];
      }
    }
  }

  // ----------------------------------------------------------- memory game

  datatype Card = Card(id: nat, emoji: string, isFlipped: bool, isMatched: bool)

  /** The memory-game fields: the deck, the ids turned up, and the counters. */
  datatype Memory = Memory(cards: seq<Card>, flipped: seq<nat>, matches: nat, moves: nat, score: nat)

  predicate IsMatched(c: Card) {
    c.isMatched
  }

  /** The shuffle yields some order of the doubled emoji list. */
  predicate IsShuffle(shuffled: seq<string>) {
    multiset(shuffled) == multiset(MemoryEmojis + MemoryEmojis)
  }

  /** `initializeMemoryGame` given the shuffled emojis: card `i` shows the
      `i`-th emoji face down and unmatched; the score starts at 1000. */
  function NewMemory(shuffled: seq<string>): (m: Memory)
    ensures EmojisOf(m.cards) == shuffled
    ensures forall i :: 0 <= i < |m.cards| ==> m.cards[i].id == i && !m.cards[i].isFlipped && !m.cards[i].isMatched
    ensures m.flipped == [] && m.matches == 0 && m.moves == 0 && m.score == 1000
  {
    Memory(seq(|shuffled|, i requires 0 <= i < |shuffled| => Card(i, shuffled[i], false, false)),
           [], 0, 0, 1000)
  }

  function EmojisOf(cards: seq<Card>): (r: seq<string>)
    ensures |r| == |cards| && forall i :: 0 <= i < |cards| ==> r[i] == cards[i].emoji
  {
    seq(|cards|, i requires 0 <= i < |cards| => cards[i].emoji)
  }

  /** A new deck has 16 cards, each emoji exactly twice, and a fresh score. */
  lemma NewMemoryDeck(shuffled: seq<string>)
    requires IsShuffle(shuffled)
    ensures var m := NewMemory(shuffled);
      |m.cards| == 16 && MemoryInv(m) && m.matches == 0 && m.moves == 0 && m.score == 1000
      && (forall e :: e in MemoryEmojis ==> multiset(EmojisOf(m.cards))[e] == 2)
      && (forall i :: 0 <= i < |m.cards| ==> !m.cards[i].isMatched && m.cards[i].emoji in MemoryEmojis)
  {
    var m := NewMemory(shuffled);
    assert EmojisOf(m.cards) == shuffled;
    assert |shuffled| == |multiset(shuffled)| == 16;
    forall i | 0 <= i < |m.cards| ensures m.cards[i].emoji in MemoryEmojis {
      assert shuffled[i] in multiset(shuffled);
      assert shuffled[i] in MemoryEmojis + MemoryEmojis;
    }
    EachEmojiTwice();
    NewMemoryInv(shuffled);
  }

  lemma NewMemoryInv(shuffled: seq<string>)
    ensures MemoryInv(NewMemory(shuffled))
  {
    NoneMatched(NewMemory(shuffled).cards);
  }

  lemma EachEmojiTwice()
    ensures forall e :: e in MemoryEmojis ==> multiset(MemoryEmojis + MemoryEmojis)[e] == 2
  {
  }

  lemma {:induction false} NoneMatched(cards: seq<Card>)
    requires forall i :: 0 <= i < |cards| ==> !cards[i].isMatched
    ensures Count(cards, IsMatched) == 0
  {
    if cards != [] {
      NoneMatched(cards[1..]);
    }
  }

  /** The memory game's invariant: card `i` has id `i`, at most two distinct
      unmatched cards are up and two up cards differ, and `matches` counts
      the matched pairs. */
  predicate MemoryInv(m: Memory) {
    (forall i :: 0 <= i < |m.cards| ==> m.cards[i].id == i && !m.cards[i].isFlipped)
    && |m.flipped| <= 2 && NoDuplicates(m.flipped)
    && (forall k :: 0 <= k < |m.flipped| ==> m.flipped[k] < |m.cards| && !m.cards[m.flipped[k]].isMatched)
    && (|m.flipped| == 2 ==> m.cards[m.flipped[0]].emoji != m.cards[m.flipped[1]].emoji)
    && 2 * m.matches == Count(m.cards, IsMatched)
  }

  /** The `map` over the deck that marks the two chosen ids as matched. */
  function MarkMatched(cards: seq<Card>, first: nat, second: nat): seq<Card> {
    seq(|cards|, i requires 0 <= i < |cards| =>
      if cards[i].id == first || cards[i].id == second then cards[i].(isMatched := true) else cards[i])
  }

  /** `flipCard`. */
  function Flip(m: Memory, st: Stats, id: nat): (r: (Memory, Stats))
    requires MemoryInv(m) && id < |m.cards|
    ensures |r.0.cards| == |m.cards|
    ensures m.moves <= r.0.moves <= m.moves + 1 && m.matches <= r.0.matches <= m.matches + 1
    ensures r.0.matches == m.matches + 1 ==> r.0.flipped == [] && r.0.score == Max(0, m.score - 50) + 200
  {
    if |m.flipped| == 2 || id in m.flipped || m.cards[id].isMatched then (m, st)
    else
      var newFlipped := m.flipped + [id];
      if |newFlipped| == 2 then
        var moves, score := m.moves + 1, Max(0, m.score - 50);
        var first, second := newFlipped[0], newFlipped[1];
        if m.cards[first].emoji == m.cards[second].emoji then
          var finalScore := Max(0, m.score + 200);
          (Memory(MarkMatched(m.cards, first, second), [], m.matches + 1, moves, score + 200),
           if m.matches + 1 == |MemoryEmojis| then MemoryWon(st, finalScore) else st)
        else
          (m.(flipped := newFlipped, moves := moves, score := score), st)
      else
        (m.(flipped := newFlipped), st)
  }

  /** What one click does, by case: ignored while two cards are up or on an
      up or matched card; a first card is turned up; a second card costs a
      move and 50 points, and either matches exactly the two cards up and
      earns 200 (saving the statistics on the last pair, with the score the
      handler captured plus 200), or stays up beside the first. */
  lemma FlipRules(m: Memory, st: Stats, id: nat)
    requires MemoryInv(m) && id < |m.cards|
    ensures |m.flipped| == 2 || id in m.flipped || m.cards[id].isMatched ==> Flip(m, st, id) == (m, st)
    ensures |m.flipped| == 0 && !m.cards[id].isMatched ==> Flip(m, st, id) == (m.(flipped := [id]), st)
    ensures |m.flipped| == 1 && id !in m.flipped && !m.cards[id].isMatched ==>
      var first := m.flipped[0];
      Flip(m, st, id).0.moves == m.moves + 1
      && |Flip(m, st, id).0.cards| == |m.cards|
      && if m.cards[first].emoji == m.cards[id].emoji then
           Flip(m, st, id).0.flipped == [] && Flip(m, st, id).0.matches == m.matches + 1
           && Flip(m, st, id).0.score == Max(0, m.score - 50) + 200
           && (forall i :: 0 <= i < |m.cards| ==>
                 Flip(m, st, id).0.cards[i] == if i == first || i == id then m.cards[i].(isMatched := true) else m.cards[i])
           && Flip(m, st, id).1 == (if m.matches + 1 == |MemoryEmojis| then MemoryWon(st, m.score + 200) else st)
         else
           Flip(m, st, id).0 == m.(flipped := m.flipped + [id], moves := m.moves + 1, score := Max(0, m.score - 50))
           && Flip(m, st, id).1 == st
  {
    if m.flipped == [] {
      assert m.flipped + [id] == [id];
    }
  }

  /** The timeout after a mismatch turns both cards back down. */
  function ClearFlipped(m: Memory): (r: Memory)
    ensures r.flipped == [] && r.(flipped := m.flipped) == m
    ensures MemoryInv(m) ==> MemoryInv(r)
  {
    m.(flipped := [])
  }

  lemma {:induction false} FlipKeepsInv(m: Memory, st: Stats, id: nat)
    requires MemoryInv(m) && id < |m.cards|
    ensures MemoryInv(Flip(m, st, id).0)
  {
    if |m.flipped| == 1 && id !in m.flipped && !m.cards[id].isMatched {
      var first := m.flipped[0];
      if m.cards[first].emoji == m.cards[id].emoji {
        var once := m.cards[first := m.cards[first].(isMatched := true)];
        var twice := once[id := m.cards[id].(isMatched := true)];
        assert Flip(m, st, id).0.cards == twice;
        CountUpdate(m.cards, IsMatched, first, m.cards[first].(isMatched := true));
        CountUpdate(once, IsMatched, id, m.cards[id].(isMatched := true));
      }
    }
  }

  /** With the full deck, the game is complete (`matches` reaches 8) exactly
      when every card is matched. */
  lemma MemoryCompleteIffAllMatched(m: Memory)
    requires MemoryInv(m) && |m.cards| == 2 * |MemoryEmojis|
    ensures m.matches == |MemoryEmojis| <==> forall i :: 0 <= i < |m.cards| ==> m.cards[i].isMatched
  {
    CountAll(m.cards, IsMatched);
  }

  // ------------------------------------------------------------ Simon game

  /** The Simon fields: the colour sequence, the player's presses this level,
      whether a game is on, the step being checked, the score, and whether the
      sequence is being shown. */
  datatype Simon = Simon(sequence: seq<nat>, player: seq<nat>, playing: bool, step: nat,
                         score: nat, showing: bool)

  /** While a game is on, the presses so far are exactly the start of the sequence. */
  predicate SimonInv(g: Simon) {
    (forall k :: 0 <= k < |g.sequence| ==> g.sequence[k] < ColorCount)
    && (g.playing ==> g.step == |g.player| < |g.sequence| && g.player == g.sequence[..g.step])
  }

  /** `startSimonGame` with the random first colour. */
  function StartSimon(first: nat): (g: Simon)
    requires first < ColorCount
    ensures SimonInv(g) && g.playing && g.showing && g.sequence == [first] && g.score == 0
  {
    Simon([first], [], true, 0, 0, true)
  }

  /** `handleColorPress`, with `next` the random colour added after a level. */
  function Press(g: Simon, st: Stats, c: nat, next: nat): (r: (Simon, Stats))
    requires SimonInv(g) && c < ColorCount && next < ColorCount
    ensures SimonInv(r.0)
    ensures !g.playing || g.showing ==> r == (g, st)
    ensures g.playing && !g.showing && c != g.sequence[g.step] ==>
      r.0 == g.(player := g.player + [c], playing := false) && r.1 == SimonLost(st, g.score)
    ensures g.playing && !g.showing && c == g.sequence[g.step] && g.step + 1 == |g.sequence| ==>
      r.0 == g.(sequence := g.sequence + [next], player := [], step := 0,
                score := g.score + 100 * |g.sequence|) && r.1 == st
    ensures g.playing && !g.showing && c == g.sequence[g.step] && g.step + 1 < |g.sequence| ==>
      r.0 == g.(player := g.player + [c], step := g.step + 1) && r.1 == st
  {
    if !g.playing || g.showing then (g, st)
    else
      var newPlayer := g.player + [c];
      if newPlayer[g.step] != g.sequence[g.step] then
        (g.(player := newPlayer, playing := false), SimonLost(st, g.score))
      else if |newPlayer| == |g.sequence| then
        (g.(score := g.score + |g.sequence| * 100, sequence := g.sequence + [next],
            player := [], step := 0), st)
      else
        (g.(player := newPlayer, step := g.step + 1), st)
  }

  /** The last flash of `showSequence` ends the display. */
  function SequenceShown(g: Simon): Simon {
    g.(showing := false)
  }

  /** `showSequence` begins (one second after a completed level). */
  function ShowingSequence(g: Simon): Simon {
    g.(showing := true)
  }

  /** Repeating the whole sequence completes the level: the score grows by
      100 per colour and the sequence by exactly one colour. */
  lemma {:induction false} RepeatingSequenceCompletesLevel(g: Simon, st: Stats, next: nat)
    requires SimonInv(g) && g.playing && !g.showing && g.step == 0 && next < ColorCount
    ensures var r := PressAll(g, st, g.sequence, next);
      r.0.playing && r.0.sequence == g.sequence + [next] && r.0.step == 0 && r.0.player == []
      && r.0.score == g.score + 100 * |g.sequence| && r.1 == st
  {
    PressAllCorrect(g, st, g.sequence, next);
  }

  /** Pressing the colours `cs` in turn, with `next` as each new random colour. */
  function PressAll(g: Simon, st: Stats, cs: seq<nat>, next: nat): (Simon, Stats)
    requires SimonInv(g) && next < ColorCount
    requires forall k :: 0 <= k < |cs| ==> cs[k] < ColorCount
    decreases |cs|
  {
    if cs == [] then (g, st)
    else
      var r := Press(g, st, cs[0], next);
      PressAll(r.0, r.1, cs[1..], next)
  }

  lemma {:induction false} PressAllCorrect(g: Simon, st: Stats, cs: seq<nat>, next: nat)
    requires SimonInv(g) && g.playing && !g.showing && next < ColorCount
    requires 0 < |cs| && g.step + |cs| == |g.sequence| && cs == g.sequence[g.step..]
    ensures var r := PressAll(g, st, cs, next);
      r.0.playing && r.0.sequence == g.sequence + [next] && r.0.step == 0 && r.0.player == []
      && r.0.score == g.score + 100 * |g.sequence| && r.1 == st
    decreases |cs|
  {
    assert forall k :: 0 <= k < |cs| ==> cs[k] == g.sequence[g.step + k];
    var r := Press(g, st, cs[0], next);
    if |cs| > 1 {
      assert cs[1..] == g.sequence[g.step + 1..];
      PressAllCorrect(r.0, r.1, cs[1..], next);
    }
  }

  // ------------------------------------------------------------ focus game

  /** The focus-game fields, with the `focusScore` and `gameStats` that the
      countdown's closure captured when the game started. */
  datatype Focus = Focus(score: nat, level: nat, timer: nat, active: bool,
                         startScore: nat, startStats: Stats)

  predicate FocusInv(f: Focus) {
    f.level <= 100 && (f.active ==> 1 <= f.timer <= 60) && (!f.active ==> f.timer == 0)
  }

  /** `startFocusGame`. */
  function StartFocus(f: Focus, st: Stats): (r: Focus)
    ensures FocusInv(r) && r.active && r.timer == 60 && r.level == 50 && r.score == 0
  {
    Focus(0, 50, 60, true, f.score, st)
  }

  /** One second of the countdown. At 1 it stops the game and saves the
      statistics captured at start, with the score captured at start. */
  function FocusTick(f: Focus, st: Stats): (r: (Focus, Stats))
    requires FocusInv(f)
    ensures FocusInv(r.0)
    ensures !f.active ==> r == (f, st)
    ensures f.active && f.timer > 1 ==> r == (f.(timer := f.timer - 1), st)
    ensures f.active && f.timer <= 1 ==>
      r == (f.(timer := 0, active := false), FocusEnded(f.startStats, f.startScore))
  {
    if !f.active then (f, st)
    else if f.timer <= 1 then (f.(timer := 0, active := false), FocusEnded(f.startStats, f.startScore))
    else (f.(timer := f.timer - 1), st)
  }

  function FocusTicks(f: Focus, st: Stats, n: nat): (Focus, Stats)
    requires FocusInv(f)
    decreases n
  {
    if n == 0 then (f, st) else var r := FocusTick(f, st); FocusTicks(r.0, r.1, n - 1)
  }

  /** `handleFocusClick`, with the random points: 80 to 119, or 120 when the
      floating-point product `(r * 0.4 + 0.8) * 100` rounds up for the largest draws. */
  function FocusClick(f: Focus, points: nat): (r: Focus)
    requires FocusInv(f) && 80 <= points <= 120
    ensures FocusInv(r)
    ensures !f.active ==> r == f
    ensures f.active ==> r.score == f.score + points && r.level == Min(100, f.level + 5)
    ensures r.timer == f.timer && r.active == f.active
  {
    if !f.active then f else f.(score := f.score + points, level := Min(100, f.level + 5))
  }

  function Min(a: int, b: int): int {
    if a <= b then a else b
  }

  lemma {:induction false} FocusCountsDown(f: Focus, st: Stats, n: nat)
    requires FocusInv(f) && f.active && n < f.timer
    ensures FocusTicks(f, st, n) == (f.(timer := f.timer - n), st)
    decreases n
  {
    if n > 0 {
      FocusCountsDown(f.(timer := f.timer - 1), st, n - 1);
      assert f.(timer := f.timer - 1).(timer := f.timer - 1 - (n - 1)) == f.(timer := f.timer - n);
    }
  }

  /** Once the countdown has run `timer` ticks the game is over and the
      statistics captured at start are saved with the captured score. */
  lemma {:induction false} FocusRunsOut(f: Focus, st: Stats)
    requires FocusInv(f) && f.active
    ensures FocusTicks(f, st, f.timer)
      == (f.(timer := 0, active := false), FocusEnded(f.startStats, f.startScore))
    decreases f.timer
  {
    if f.timer > 1 {
      var g := f.(timer := f.timer - 1);
      FocusRunsOut(g, st);
      assert g.(timer := 0, active := false) == f.(timer := 0, active := false);
    }
  }

  /** A focus game lasts exactly 60 ticks of its one-second countdown. */
  lemma FocusLastsSixtySeconds(f: Focus, st: Stats, st': Stats)
    requires FocusInv(f)
    ensures var g := StartFocus(f, st);
      FocusTicks(g, st', 59).0.active
      && FocusTicks(g, st', 60) == (g.(timer := 0, active := false), FocusEnded(st, f.score))
  {
    var g := StartFocus(f, st);
    FocusCountsDown(g, st', 59);
    FocusRunsOut(g, st');
  }

  // ------------------------------------------------------------ the screen

  /** The screen's state: one record per game, plus the saved statistics. */
  class WellnessGames {
    var gameStats: Stats
    var memory: Memory
    var simon: Simon
    var focus: Focus

    ghost predicate Valid()
      reads this
    {
      MemoryInv(memory) && SimonInv(simon) && FocusInv(focus)
    }

    constructor ()
      ensures Valid() && gameStats == NoStats
      ensures memory == Memory([], [], 0, 0, 0)
      ensures simon == Simon([], [], false, 0, 0, false)
      ensures focus == Focus(0, 0, 0, false, 0, NoStats)
    {
      gameStats := NoStats;
      memory := Memory([], [], 0, 0, 0);
      simon := Simon([], [], false, 0, 0, false);
      focus := Focus(0, 0, 0, false, 0, NoStats);
    }

    method InitializeMemoryGame(shuffled: seq<string>)
      requires Valid()
      modifies this
      ensures Valid() && memory == NewMemory(shuffled)
      ensures gameStats == old(gameStats) && simon == old(simon) && focus == old(focus)
    {
      NewMemoryInv(shuffled);
      var cards := seq(|shuffled|, i requires 0 <= i < |shuffled| => Card(i, shuffled[i], false, false));
      memory := Memory(cards, [], 0, 0, 1000);
    }

    method FlipCard(cardId: nat)
      requires Valid() && cardId < |memory.cards|
      modifies this
      ensures Valid()
      ensures (memory, gameStats) == Flip(old(memory), old(gameStats), cardId)
      ensures simon == old(simon) && focus == old(focus)
    {
      FlipKeepsInv(memory, gameStats, cardId);
      if |memory.flipped| == 2 || cardId in memory.flipped || memory.cards[cardId].isMatched {
        return;
      }
      var newFlippedCards := memory.flipped + [cardId];
      memory := memory.(flipped := newFlippedCards);
      if |newFlippedCards| == 2 {
        var capturedScore := memory.score;
        memory := memory.(moves := memory.moves + 1, score := Max(0, memory.score - 50));
        var firstCard, secondCard := newFlippedCards[0], newFlippedCards[1];
        if memory.cards[firstCard].emoji == memory.cards[secondCard].emoji {
          var capturedMatches := memory.matches;
          memory := memory.(cards := MarkMatched(memory.cards, firstCard, secondCard),
                            matches := memory.matches + 1, flipped := [], score := memory.score + 200);
          if capturedMatches + 1 == |MemoryEmojis| {
            var finalScore := Max(0, capturedScore + 200);
            gameStats := MemoryWon(gameStats, finalScore);
          }
        }
      }
    }

    /** The timeout after a mismatch. */
    method ClearFlippedCards()
      requires Valid()
      modifies this
      ensures Valid() && memory == ClearFlipped(old(memory))
      ensures gameStats == old(gameStats) && simon == old(simon) && focus == old(focus)
    {
      memory := memory.(flipped := []);
    }

    method StartSimonGame(first: nat)
      requires Valid() && first < ColorCount
      modifies this
      ensures Valid() && simon == StartSimon(first)
      ensures gameStats == old(gameStats) && memory == old(memory) && focus == old(focus)
    {
      simon := simon.(sequence := [first], player := [], step := 0, score := 0, playing := true,
                      showing := true);
    }

    method ShowSequence()
      requires Valid()
      modifies this
      ensures Valid() && simon == ShowingSequence(old(simon))
      ensures gameStats == old(gameStats) && memory == old(memory) && focus == old(focus)
    {
      simon := simon.(showing := true);
    }

    method FinishShowingSequence()
      requires Valid()
      modifies this
      ensures Valid() && simon == SequenceShown(old(simon))
      ensures gameStats == old(gameStats) && memory == old(memory) && focus == old(focus)
    {
      simon := simon.(showing := false);
    }

    method HandleColorPress(colorIndex: nat, next: nat)
      requires Valid() && colorIndex < ColorCount && next < ColorCount
      modifies this
      ensures Valid()
      ensures (simon, gameStats) == Press(old(simon), old(gameStats), colorIndex, next)
      ensures memory == old(memory) && focus == old(focus)
    {
      if !simon.playing || simon.showing {
        return;
      }
      var newPlayerSequence := simon.player + [colorIndex];
      simon := simon.(player := newPlayerSequence);
      if newPlayerSequence[simon.step] != simon.sequence[simon.step] {
        simon := simon.(playing := false);
        gameStats := SimonLost(gameStats, simon.score);
        return;
      }
      if |newPlayerSequence| == |simon.sequence| {
        simon := simon.(score := simon.score + |simon.sequence| * 100);
        simon := simon.(sequence := simon.sequence + [next], player := [], step := 0);
      } else {
        simon := simon.(step := simon.step + 1);
      }
    }

    method StartFocusGame()
      requires Valid()
      modifies this
      ensures Valid() && focus == StartFocus(old(focus), old(gameStats))
      ensures gameStats == old(gameStats) && memory == old(memory) && simon == old(simon)
    {
      focus := Focus(0, 50, 60, true, focus.score, gameStats);
    }

    method FocusTimerTick()
      requires Valid()
      modifies this
      ensures Valid()
      ensures (focus, gameStats) == FocusTick(old(focus), old(gameStats))
      ensures memory == old(memory) && simon == old(simon)
    {
      if !focus.active {
        return;
      }
      if focus.timer <= 1 {
        focus := focus.(active := false);
        gameStats := FocusEnded(focus.startStats, focus.startScore);
        focus := focus.(timer := 0);
      } else {
        focus := focus.(timer := focus.timer - 1);
      }
    }

    method HandleFocusClick(points: nat)
      requires Valid() && 80 <= points <= 120
      modifies this
      ensures Valid() && focus == FocusClick(old(focus), points)
      ensures gameStats == old(gameStats) && memory == old(memory) && simon == old(simon)
    {
      if !focus.active {
        return;
      }
      focus := focus.(score := focus.score + points, level := Min(100, focus.level + 5));
    }
  }
}
