/** The play page of app/play/page.tsx: the bounded notification log of
    `useNotifications`, with its id counter and toast, and the selection
    state the page's handlers step through. React state setters become
    field updates; the toast timer becomes a method the caller invokes
    when the timer fires. */
module Play {
  import opened Wrappers
  import opened Seqs
  import opened Text

  datatype Notice = Notice(id: nat, text: string)

  /** `next.length > max ? next.slice(next.length - max) : next`: the
      newest `max` entries. */
  function KeepNewest(s: seq<Notice>, max: nat): (r: seq<Notice>)
    ensures |r| == if |s| > max then max else |s|
    ensures r == s[|s| - |r|..]
  {
    if |s| > max then s[|s| - max..] else s
  }

  /** The timer's updater `cur?.id === id ? null : cur`. */
  function AfterTimer(cur: Option<Notice>, id: nat): (r: Option<Notice>)
    ensures r.None? <==> cur.None? || cur.value.id == id
    ensures r.Some? ==> r == cur
  {
    if cur.Some? && cur.value.id == id then None else cur
  }

  /** Ids in the log strictly increase and are all below `next`. */
  predicate IdsOrdered(log: seq<Notice>, next: nat)
  {
    && (forall i, j :: 0 <= i < j < |log| ==> log[i].id < log[j].id)
    && (forall i :: 0 <= i < |log| ==> log[i].id < next)
  }

  lemma SuffixKeepsOrder(s: seq<Notice>, next: nat, from: nat)
    requires from <= |s| && IdsOrdered(s, next)
    ensures IdsOrdered(s[from..], next)
  {
    assert forall i :: 0 <= i < |s| - from ==> s[from..][i] == s[from + i];
  }

  /** Appending a notice with the next id and keeping the newest entries
      keeps the ids ordered, and the new notice is last unless the log
      holds no entries at all. */
  lemma AppendKeepsOrder(log: seq<Notice>, next: nat, text: string, max: nat)
    requires IdsOrdered(log, next)
    ensures IdsOrdered(KeepNewest(log + [Notice(next, text)], max), next + 1)
    ensures max > 0 ==> var r := KeepNewest(log + [Notice(next, text)], max);
      r != [] && r[|r| - 1] == Notice(next, text)
  {
    var s := log + [Notice(next, text)];
    assert forall i :: 0 <= i < |log| ==> s[i] == log[i];
    assert IdsOrdered(s, next + 1);
    var r := KeepNewest(s, max);
    SuffixKeepsOrder(s, next + 1, |s| - |r|);
  }

  /** The newest-first view of the log (`log.slice().reverse()`). */
  function NewestFirst(log: seq<Notice>): (r: seq<Notice>)
    ensures |r| == |log|
    ensures forall k :: 0 <= k < |log| ==> r[k] == log[|log| - 1 - k]
  {
    var r := Reversed(log);
    forall k | 0 <= k < |log| ensures r[k] == log[|log| - 1 - k] {
      ReversedAt(log, k);
    }
    r
  }

  /** `useNotifications(max)` */
  class Notifications {
    var log: seq<Notice>
    var toast: Option<Notice>
    var nextId: nat
    const max: nat

    predicate Valid()
      reads this
    {
      && nextId >= 1
      && |log| <= max
      && IdsOrdered(log, nextId)
      && (toast.Some? ==> toast.value.id < nextId)
    }

    constructor(max: nat)
      ensures Valid()
      ensures log == [] && toast == None && nextId == 1 && this.max == max
    {
      log := [];
      toast := None;
      nextId := 1;
      this.max := max;
    }

    /** `push(text, showToast)`: takes the next id, appends the notice
        keeping the newest `max` entries, and shows it as the toast when
        asked. */
    method Push(text: string, showToast: bool) returns (id: nat)
      requires Valid()
      modifies this
      ensures Valid()
      ensures id == old(nextId) && nextId == old(nextId) + 1
      ensures log == KeepNewest(old(log) + [Notice(id, text)], max)
      ensures max > 0 ==> log[|log| - 1] == Notice(id, text)
      ensures toast == if showToast then Some(Notice(id, text)) else old(toast)
    {
      id := nextId;
      nextId := nextId + 1;
      AppendKeepsOrder(log, id, text, max);
      log := KeepNewest(log + [Notice(id, text)], max);
      if showToast {
        toast := Some(Notice(id, text));
      }
    }

    /** The toast timer of the push that produced `id` fires. */
    method TimerFired(id: nat)
      requires Valid()
      modifies this
      ensures Valid()
      ensures toast == AfterTimer(old(toast), id)
      ensures log == old(log) && nextId == old(nextId)
    {
      toast := AfterTimer(toast, id);
    }
  }

  datatype Side = Left | Right

  function SideName(side: Side): string
  {
    match side
    case Left => "Left"
    case Right => "Right"
  }

  datatype Stat = Stat(name: string, value: nat)

  /** `LEFT_STATS` */
  const LeftStats: seq<Stat> :=
    [Stat("Strength", 12), Stat("Stamina", 8), Stat("Prana", 14), Stat("Focus", 10),
     Stat("Agility", 7), Stat("Luck", 9), Stat("Wisdom", 11), Stat("Spirit", 13),
     Stat("Armor", 6)]

  /** `RIGHT_STATS` */
  const RightStats: seq<Stat> :=
    [Stat("Strength", 9), Stat("Stamina", 10), Stat("Prana", 12), Stat("Focus", 8),
     Stat("Agility", 11), Stat("Luck", 6), Stat("Wisdom", 14), Stat("Spirit", 7),
     Stat("Armor", 10)]

  function StatsOf(side: Side): (s: seq<Stat>)
    ensures |s| == 9
  {
    if side == Left then LeftStats else RightStats
  }

  const StartText: string := "Game started. Left card is active."

  /** The notice of `onCardFocus`. */
  function FocusText(side: Side): (t: string)
    ensures StartsWith(t, SideName(side))
  {
    SideName(side) + " card focused"
  }

  /** The notice of `onStatSelect`: side, stat name and value. */
  function SelectText(side: Side, i: nat): (t: string)
    requires i < 9
    ensures StartsWith(t, SideName(side))
  {
    var st := StatsOf(side)[i];
    SideName(side) + " selected " + st.name + ": " + NatToString(st.value)
  }

  /** The select notice names the chosen stat right after " selected " and
      ends with its value. */
  lemma SelectTextSpec(side: Side, i: nat)
    requires i < 9
    ensures var t, st := SelectText(side, i), StatsOf(side)[i];
      && OccursAt(t, st.name, |SideName(side)| + |" selected "|)
      && Contains(t, st.name) && Contains(t, NatToString(st.value))
      && |NatToString(st.value)| <= |t|
      && t[|t| - |NatToString(st.value)|..] == NatToString(st.value)
  {
    var st := StatsOf(side)[i];
    var v := NatToString(st.value);
    var t := SelectText(side, i);
    var at := |SideName(side)| + |" selected "|;
    assert t == SideName(side) + " selected " + st.name + ": " + v;
    assert t[at..at + |st.name|] == st.name;
    assert OccursAt(t, st.name, at);
    assert t[|t| - |v|..] == v;
    assert OccursAt(t, v, |t| - |v|);
  }


  /** The selection state of `PlayPage`. */
  class Game {
    var gameStarted: bool
    var activeCard: Option<Side>
    var selectedLeft: Option<nat>
    var selectedRight: Option<nat>
    const notes: Notifications

    predicate Valid()
      reads this, notes
    {
      notes.Valid()
    }

    constructor()
      ensures Valid() && fresh(notes)
      ensures !gameStarted && activeCard == None && selectedLeft == None && selectedRight == None
      ensures notes.log == [] && notes.max == 50
    {
      gameStarted := false;
      activeCard := None;
      selectedLeft := None;
      selectedRight := None;
      notes := new Notifications(50);
    }

    /** `handleStart` */
    method HandleStart()
      requires Valid()
      modifies this, notes
      ensures Valid()
      ensures gameStarted && activeCard == Some(Left)
      ensures selectedLeft == None && selectedRight == None
      ensures notes.nextId == old(notes.nextId) + 1
      ensures notes.log == KeepNewest(old(notes.log) + [Notice(old(notes.nextId), StartText)], notes.max)
      ensures notes.toast == Some(Notice(old(notes.nextId), StartText))
    {
      gameStarted := true;
      activeCard := Some(Left);
      selectedLeft := None;
      selectedRight := None;
      var _ := notes.Push(StartText, true);
    }

    /** `onCardFocus(side)`: only the active card changes in game state. */
    method OnCardFocus(side: Side)
      requires Valid()
      modifies this, notes
      ensures Valid()
      ensures activeCard == Some(side)
      ensures gameStarted == old(gameStarted)
      ensures selectedLeft == old(selectedLeft) && selectedRight == old(selectedRight)
      ensures notes.nextId == old(notes.nextId) + 1
      ensures notes.log == KeepNewest(old(notes.log) + [Notice(old(notes.nextId), FocusText(side))], notes.max)
      ensures notes.toast == Some(Notice(old(notes.nextId), FocusText(side)))
    {
      activeCard := Some(side);
      var _ := notes.Push(FocusText(side), true);
    }

    /** `onStatSelect(side, i)`: only that side's selection changes, and the
        notice names the chosen stat and its value. */
    method OnStatSelect(side: Side, i: nat)
      requires Valid()
      requires i < 9
      modifies this, notes
      ensures Valid()
      ensures side == Left ==> selectedLeft == Some(i) && selectedRight == old(selectedRight)
      ensures side == Right ==> selectedRight == Some(i) && selectedLeft == old(selectedLeft)
      ensures gameStarted == old(gameStarted) && activeCard == old(activeCard)
      ensures notes.nextId == old(notes.nextId) + 1
      ensures notes.log == KeepNewest(old(notes.log) + [Notice(old(notes.nextId), SelectText(side, i))], notes.max)
      ensures notes.toast == Some(Notice(old(notes.nextId), SelectText(side, i)))
    {
      if side == Left {
        selectedLeft := Some(i);
      } else {
        selectedRight := Some(i);
      }
      var _ := notes.Push(SelectText(side, i), true);
    }
  }
}
