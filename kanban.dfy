/**
 * The deals board: six stage columns, the stage lookup of a deal card, and
 * the drag-and-drop transition `handleDragEnd` on the board's list of deals.
 */
module Kanban {
  import opened Wrappers
  import opened Filters
  import JsValues

  /** A drag-and-drop id: a deal's numeric id, or a string (a column's stage id). */
  datatype Key = NumKey(n: int) | StrKey(s: string)

  /** `id.toString()`. */
  function KeyText(k: Key): (r: string)
    ensures k.StrKey? ==> r == k.s
  {
    match k
    case NumKey(n) => JsValues.Decimal(n)
    case StrKey(s) => s
  }

  /** A deal as the board holds it; `stage` is whatever the store returned. */
  datatype Card = Card(id: Key, stage: string, title: string, amount: int, clientId: Option<int>)

  /** One entry of `STAGES`. */
  datatype StageInfo = StageInfo(id: string, caption: string, color: string)

  /** `STAGES`, the columns of the board in display order. */
  const Stages: seq<StageInfo> := [
    StageInfo("new", "Новая", "#94a3b8"),
    StageInfo("qualification", "Квалификация", "#3b82f6"),
    StageInfo("proposal", "Предложение", "#8b5cf6"),
    StageInfo("negotiation", "Переговоры", "#f59e0b"),
    StageInfo("closed_won", "Закрыта", "#10b981"),
    StageInfo("closed_lost", "Проиграна", "#ef4444")
  ]

  /** `stages.find(s => s.id === id)`: the first entry with that id. */
  function FindStage(stages: seq<StageInfo>, id: string): (r: Option<StageInfo>)
    ensures r.None? <==> forall i :: 0 <= i < |stages| ==> stages[i].id != id
    ensures r.Some? ==> exists i :: 0 <= i < |stages| && stages[i] == r.value &&
                          forall j :: 0 <= j < i ==> stages[j].id != id
    ensures r.Some? ==> r.value.id == id
  {
    if stages == [] then None
    else if stages[0].id == id then Some(stages[0])
    else
      var r := FindStage(stages[1..], id);
      assert forall j :: 1 <= j < |stages| ==> stages[j] == stages[1..][j - 1];
      r
  }

  /** `STAGES.some(s => s.id === id)`. */
  predicate IsStage(id: string) {
    FindStage(Stages, id).Some?
  }

  /** The stage a deal card shows: its own, or `STAGES[0]` when the deal's
      stage is not one of the six. */
  function StageOfCard(deal: Card): (r: StageInfo)
    ensures r in Stages
    ensures IsStage(deal.stage) ==> r.id == deal.stage
    ensures !IsStage(deal.stage) ==> r == Stages[0]
  {
    match FindStage(Stages, deal.stage)
    case Some(s) => s
    case None => Stages[0]
  }

  /** The unknown-stage fallback is the `new` column. */
  lemma UnknownStageShowsAsNew(deal: Card)
    requires !IsStage(deal.stage)
    ensures StageOfCard(deal).id == "new" && StageOfCard(deal).caption == "Новая"
  {
  }

  /** The six stage ids are pairwise different. */
  predicate DistinctIds(stages: seq<StageInfo>) {
    forall i, j :: 0 <= i < j < |stages| ==> stages[i].id != stages[j].id
  }

  lemma StagesDistinct()
    ensures DistinctIds(Stages)
  {
  }

  /** No deal's numeric id names a column: its text is digits, with at most a
      leading minus sign, and every stage id starts with a letter. */
  lemma NumericKeyIsNoStage(n: int)
    ensures !IsStage(KeyText(NumKey(n)))
  {
    var t := KeyText(NumKey(n));
    assert JsValues.IsDigit(t[0]) || t[0] == '-';
    forall i | 0 <= i < |Stages|
      ensures Stages[i].id != t
    {
      assert 'a' <= Stages[i].id[0] <= 'z';
    }
  }

  /** `deals.findIndex(d => d.id === key)`: the first position holding `key`, or -1. */
  function FindIndex(deals: seq<Card>, key: Key): (r: int)
    ensures -1 <= r < |deals|
    ensures r == -1 <==> forall j :: 0 <= j < |deals| ==> deals[j].id != key
    ensures r >= 0 ==> deals[r].id == key && forall j :: 0 <= j < r ==> deals[j].id != key
  {
    if deals == [] then -1
    else if deals[0].id == key then 0
    else
      var r := FindIndex(deals[1..], key);
      assert forall j :: 1 <= j < |deals| ==> deals[j] == deals[1..][j - 1];
      if r == -1 then -1 else r + 1
  }

  /** `deals.map(d => d.id === key ? { ...d, stage } : d)`. */
  function SetStage(deals: seq<Card>, key: Key, stage: string): (r: seq<Card>)
    ensures |r| == |deals|
    ensures forall i :: 0 <= i < |deals| && deals[i].id != key ==> r[i] == deals[i]
    ensures forall i :: 0 <= i < |deals| && deals[i].id == key ==> r[i] == deals[i].(stage := stage)
  {
    seq(|deals|, i requires 0 <= i < |deals| =>
      if deals[i].id == key then deals[i].(stage := stage) else deals[i])
  }

  /** `arrayMove(xs, from, to)` of dnd-kit: take the element at `from`
      out and put it back in at `to`. */
  function ArrayMove<T>(s: seq<T>, from: nat, to: nat): (r: seq<T>)
    requires from < |s| && to < |s|
    ensures |r| == |s|
  {
    var rest := s[..from] + s[from + 1..];
    rest[..to] + [s[from]] + rest[to..]
  }

  /** The moved element lands at `to`; the elements between the two
      positions shift by one towards `from`; the rest stay put. */
  lemma ArrayMoveAt<T>(s: seq<T>, from: nat, to: nat)
    requires from < |s| && to < |s|
    ensures ArrayMove(s, from, to)[to] == s[from]
    ensures forall i :: 0 <= i < |s| && i < from && i < to ==> ArrayMove(s, from, to)[i] == s[i]
    ensures forall i :: 0 <= i < |s| && i > from && i > to ==> ArrayMove(s, from, to)[i] == s[i]
    ensures forall i :: from <= i < to ==> ArrayMove(s, from, to)[i] == s[i + 1]
    ensures forall i :: to < i <= from ==> ArrayMove(s, from, to)[i] == s[i - 1]
  {
  }

  /** Moving an element is a permutation: nothing is lost, duplicated or changed. */
  lemma ArrayMovePermutes<T>(s: seq<T>, from: nat, to: nat)
    requires from < |s| && to < |s|
    ensures multiset(ArrayMove(s, from, to)) == multiset(s)
  {
    var rest := s[..from] + s[from + 1..];
    var x := s[from];
    assert s == s[..from] + [x] + s[from + 1..];
    assert rest == rest[..to] + rest[to..];
    calc {
      multiset(ArrayMove(s, from, to));
      multiset(rest[..to] + [x] + rest[to..]);
      multiset(rest[..to]) + multiset([x]) + multiset(rest[to..]);
      multiset(rest) + multiset([x]);
      multiset(s[..from]) + multiset(s[from + 1..]) + multiset([x]);
      multiset(s[..from] + [x] + s[from + 1..]);
      multiset(s);
    }
  }

  /** Moving back from `to` to `from` undoes the move. */
  lemma ArrayMoveUndo<T>(s: seq<T>, from: nat, to: nat)
    requires from < |s| && to < |s|
    ensures ArrayMove(ArrayMove(s, from, to), to, from) == s
  {
    var m := ArrayMove(s, from, to);
    ArrayMoveAt(s, from, to);
    ArrayMoveAt(m, to, from);
    var back := ArrayMove(m, to, from);
    forall i | 0 <= i < |s|
      ensures back[i] == s[i]
    {
      if i == from {
      } else if i < from && i < to {
      } else if i > from && i > to {
      } else if from < to {
        assert back[i] == m[i - 1];
      } else {
        assert back[i] == m[i + 1];
      }
    }
  }

  /** `handleDragEnd` on the list of deals: `active` is the dragged deal's
      id, `over` the id of the column or card it was dropped on, if any. */
  function Drop(deals: seq<Card>, active: Key, over: Option<Key>): (r: seq<Card>)
    ensures |r| == |deals|
  {
    if over.None? || active == over.value then deals
    else if FindIndex(deals, active) == -1 then deals
    else if IsStage(KeyText(over.value)) then SetStage(deals, active, KeyText(over.value))
    else
      var oldIndex := FindIndex(deals, active);
      var newIndex := FindIndex(deals, over.value);
      if oldIndex != -1 && newIndex != -1 then ArrayMove(deals, oldIndex, newIndex)
      else deals
  }

  /** Dropping outside any target, or onto the dragged card itself, changes nothing. */
  lemma DropWithoutTarget(deals: seq<Card>, active: Key, over: Option<Key>)
    requires over.None? || over == Some(active)
    ensures Drop(deals, active, over) == deals
  {
  }

  /** Dragging an id that no deal has changes nothing. */
  lemma DropOfUnknownDeal(deals: seq<Card>, active: Key, over: Option<Key>)
    requires forall i :: 0 <= i < |deals| ==> deals[i].id != active
    ensures Drop(deals, active, over) == deals
  {
  }

  /** Dropping onto a column gives every deal with the dragged id that
      column's stage, and touches nothing else: not the other deals, not the
      dragged deal's other fields, not the order. */
  lemma DropOnColumn(deals: seq<Card>, active: Key, over: Key)
    requires over != active && FindIndex(deals, active) != -1 && IsStage(KeyText(over))
    ensures |Drop(deals, active, Some(over))| == |deals|
    ensures forall i :: 0 <= i < |deals| && deals[i].id != active ==>
      Drop(deals, active, Some(over))[i] == deals[i]
    ensures forall i :: 0 <= i < |deals| && deals[i].id == active ==>
      Drop(deals, active, Some(over))[i] == deals[i].(stage := KeyText(over))
  {
  }

  /** Deal ids are unique on the board. */
  predicate UniqueIds(deals: seq<Card>) {
    forall i, j :: 0 <= i < j < |deals| ==> deals[i].id != deals[j].id
  }

  /** With unique ids, dropping onto a column rewrites exactly one entry:
      the dragged deal, whose stage becomes the column's. */
  lemma DropOnColumnChangesOneDeal(deals: seq<Card>, active: Key, over: Key)
    requires UniqueIds(deals)
    requires over != active && FindIndex(deals, active) != -1 && IsStage(KeyText(over))
    ensures Drop(deals, active, Some(over)) ==
      deals[FindIndex(deals, active) := deals[FindIndex(deals, active)].(stage := KeyText(over))]
  {
    DropOnColumn(deals, active, over);
  }

  /** After a drop onto a column the dragged deal is shown in that column. */
  lemma DropOnColumnShowsDeal(deals: seq<Card>, active: Key, over: Key)
    requires over != active && FindIndex(deals, active) != -1 && IsStage(KeyText(over))
    ensures Drop(deals, active, Some(over))[FindIndex(deals, active)]
      in DealsByStage(Drop(deals, active, Some(over)), KeyText(over))
  {
    DropOnColumn(deals, active, over);
  }

  /** Dropping onto another card moves the dragged deal to that card's
      position: a permutation of the deals, with no stage changed. */
  lemma DropOnCard(deals: seq<Card>, active: Key, over: Key)
    requires over != active && !IsStage(KeyText(over))
    requires FindIndex(deals, active) != -1 && FindIndex(deals, over) != -1
    ensures Drop(deals, active, Some(over)) ==
      ArrayMove(deals, FindIndex(deals, active), FindIndex(deals, over))
    ensures multiset(Drop(deals, active, Some(over))) == multiset(deals)
    ensures Drop(deals, active, Some(over))[FindIndex(deals, over)] == deals[FindIndex(deals, active)]
  {
    ArrayMovePermutes(deals, FindIndex(deals, active), FindIndex(deals, over));
    ArrayMoveAt(deals, FindIndex(deals, active), FindIndex(deals, over));
  }

  /** Dropping onto something that is neither a column nor a card changes nothing. */
  lemma DropOnNothing(deals: seq<Card>, active: Key, over: Key)
    requires !IsStage(KeyText(over))
    requires forall i :: 0 <= i < |deals| ==> deals[i].id != over
    ensures Drop(deals, active, Some(over)) == deals
  {
  }

  /** `getDealsByStage(stageId)`: the column's deals, in board order. */
  function DealsByStage(deals: seq<Card>, stageId: string): (r: seq<Card>)
    ensures forall d :: d in r <==> d in deals && d.stage == stageId
  {
    Filter(deals, (d: Card) => d.stage == stageId)
  }

  /** A column keeps board order: it distributes over concatenation. */
  lemma ColumnKeepsOrder(a: seq<Card>, b: seq<Card>, stageId: string)
    ensures DealsByStage(a + b, stageId) == DealsByStage(a, stageId) + DealsByStage(b, stageId)
  {
    FilterConcat(a, b, (d: Card) => d.stage == stageId);
  }

  /** Two different columns share no deal. */
  lemma ColumnsDisjoint(deals: seq<Card>, s: string, t: string)
    requires s != t
    ensures forall d :: d in DealsByStage(deals, s) ==> d !in DealsByStage(deals, t)
  {
  }

  /** A deal whose stage is not one of the six is in no column. */
  lemma UnknownStageInNoColumn(deals: seq<Card>, d: Card)
    requires !IsStage(d.stage)
    ensures forall i :: 0 <= i < |Stages| ==> d !in DealsByStage(deals, Stages[i].id)
  {
  }

  /** All the columns of `stages` taken together. */
  function Columns(deals: seq<Card>, stages: seq<StageInfo>): multiset<Card>
  {
    if stages == [] then multiset{}
    else multiset(DealsByStage(deals, stages[0].id)) + Columns(deals, stages[1..])
  }

  /** Columns with distinct ids show each deal whose stage is one of theirs
      exactly once, and no other deal. */
  lemma {:induction false} ColumnsPartition(deals: seq<Card>, stages: seq<StageInfo>)
    requires DistinctIds(stages)
    ensures Columns(deals, stages) ==
      multiset(Filter(deals, (d: Card) => FindStage(stages, d.stage).Some?))
    decreases |stages|
  {
    var known := (d: Card) => FindStage(stages, d.stage).Some?;
    if stages == [] {
      FilterNone(deals, known);
    } else {
      var rest := stages[1..];
      assert DistinctIds(rest) by {
        forall i, j | 0 <= i < j < |rest|
          ensures rest[i].id != rest[j].id
        {
          assert rest[i] == stages[i + 1] && rest[j] == stages[j + 1];
        }
      }
      ColumnsPartition(deals, rest);
      var here := (d: Card) => d.stage == stages[0].id;
      var later := (d: Card) => FindStage(rest, d.stage).Some?;
      assert forall i :: 0 <= i < |rest| ==> rest[i] == stages[i + 1];
      FilterEither(deals, known, here, later);
    }
  }

  /** The six columns of the board show every deal with a known stage
      exactly once, and no other deal. */
  lemma BoardShowsKnownDeals(deals: seq<Card>)
    ensures Columns(deals, Stages) == multiset(Filter(deals, (d: Card) => IsStage(d.stage)))
    ensures |Filter(deals, (d: Card) => IsStage(d.stage))| <= |deals|
  {
    StagesDistinct();
    ColumnsPartition(deals, Stages);
    FilterSame(deals, (d: Card) => FindStage(Stages, d.stage).Some?, (d: Card) => IsStage(d.stage));
  }

  /** The board's state: the deals list and the id being dragged. */
  class Board {
    var deals: seq<Card>
    var activeId: Option<Key>

    constructor(loaded: seq<Card>)
      ensures deals == loaded && activeId == None
    {
      deals := loaded;
      activeId := None;
    }

    /** `handleDragStart`. */
    method DragStart(active: Key)
      modifies this
      ensures activeId == Some(active) && deals == old(deals)
    {
      activeId := Some(active);
    }

    /** `handleDragEnd`: the drag ends, and the deals take the drop's effect. */
    method DragEnd(active: Key, over: Option<Key>)
      modifies this
      ensures activeId == None
      ensures deals == Drop(old(deals), active, over)
    {
      activeId := None;
      if over.None? || active == over.value {
        return;
      }
      if FindIndex(deals, active) == -1 {
        return;
      }
      var overColumn := KeyText(over.value);
      if IsStage(overColumn) {
        deals := SetStage(deals, active, overColumn);
      } else {
        var oldIndex := FindIndex(deals, active);
        var newIndex := FindIndex(deals, over.value);
        if oldIndex != -1 && newIndex != -1 {
          deals := ArrayMove(deals, oldIndex, newIndex);
        }
      }
    }
  }
}
