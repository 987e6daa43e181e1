/**
 * The completion ledger of script.js: `scores`, a plain object mapping each
 * player name to the list of task labels they completed, in order.
 */
module Scoring {
  import opened Wrappers

  type Ledger = map<string, seq<string>>

  /**
   * The property names every plain JavaScript object inherits from
   * `Object.prototype`. Reading one of them on `scores` yields a function or
   * the prototype object itself: truthy, and without an array's `push`.
   */
  const InheritedKeys: set<string> := {
    "constructor", "__proto__", "__defineGetter__", "__defineSetter__",
    "__lookupGetter__", "__lookupSetter__", "hasOwnProperty", "isPrototypeOf",
    "propertyIsEnumerable", "toString", "toLocaleString", "valueOf"
  }

  /**
   * `markTaskComplete` as written: `scores[player]` is replaced by `[]` only
   * when it is falsy, then `task` is pushed. `None` stands for the TypeError
   * thrown when the lookup finds an inherited member instead of a list.
   */
  function RecordAsWritten(scores: Ledger, player: string, task: string): (r: Option<Ledger>)
    ensures r.None? <==> player !in scores && player in InheritedKeys
    ensures player !in InheritedKeys ==> r == Some(Record(scores, player, task))
    ensures r.Some? ==> r.value == Record(scores, player, task)
  {
    if player in scores then Some(scores[player := scores[player] + [task]])
    else if player in InheritedKeys then None
    else assert [] + [task] == [task]; Some(scores[player := [task]])
  }

  /** A player named "constructor" with no entry yet can never be credited. */
  lemma ConstructorPlayerThrows(scores: Ledger, task: string)
    requires "constructor" !in scores
    ensures RecordAsWritten(scores, "constructor", task).None?
  {
  }

  /**
   * Crediting `task` to `player`, keyed on the ledger's own entries: the
   * player's list (empty if absent) gains `task` at its end and every other
   * player's entry is untouched.
   */
  function Record(scores: Ledger, player: string, task: string): (r: Ledger)
    ensures r.Keys == scores.Keys + {player}
    ensures r[player] == (if player in scores then scores[player] else []) + [task]
    ensures forall q :: q in scores && q != player ==> r[q] == scores[q]
  {
    var done := if player in scores then scores[player] else [];
    scores[player := done + [task]]
  }

  /**
   * Crediting is not idempotent: crediting the same task twice leaves two
   * copies of it at the end of the player's list.
   */
  lemma RecordTwiceDuplicates(scores: Ledger, player: string, task: string)
    ensures var r := Record(Record(scores, player, task), player, task);
            && |r[player]| == (if player in scores then |scores[player]| else 0) + 2
            && r[player][|r[player]| - 2..] == [task, task]
            && multiset(r[player])[task] == (if player in scores then multiset(scores[player])[task] else 0) + 2
  {
  }
}
