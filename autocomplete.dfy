/** The interaction state of components/autocomplete.tsx: the query text, the option
    list, the open/closed dropdown, the keyboard highlight and the debounce timer that
    turns the latest non-blank query into one `fetchOptions` call. */
module Autocomplete {
  import opened Wrappers
  import opened Text
  import opened Domain

  // ---------------------------------------------------------------------------------
  // Keyboard highlight

  /** ArrowDown: one option further, from the last back to the first. */
  function NextIndex(prev: int, n: nat): (r: int)
    ensures n > 0 && -1 <= prev < n ==> 0 <= r < n
    ensures 0 <= prev < n ==> r == (prev + 1) % n
    ensures prev == -1 ==> r == 0
  {
    if prev < n - 1 then prev + 1 else 0
  }

  /** ArrowUp: one option back, from the first (or from none) to the last. */
  function PrevIndex(prev: int, n: nat): (r: int)
    ensures n > 0 && -1 <= prev < n ==> 0 <= r < n
    ensures 0 <= prev < n ==> r == (prev - 1 + n) % n
    ensures prev == -1 ==> r == n - 1
  {
    if prev > 0 then prev - 1 else n - 1
  }

  /** ArrowDown and ArrowUp undo each other on a highlighted option. */
  lemma UpUndoesDown(i: int, n: nat)
    requires 0 <= i < n
    ensures PrevIndex(NextIndex(i, n), n) == i
    ensures NextIndex(PrevIndex(i, n), n) == i
  {
  }

  /** The highlight after `k` presses of ArrowDown from `i`. */
  function DownPresses(i: int, n: nat, k: nat): int
    decreases k
  {
    if k == 0 then i else NextIndex(DownPresses(i, n, k - 1), n)
  }

  /** Presses add up: `a` presses then `b` more are `a + b` presses. */
  lemma {:induction false} DownPressesCompose(i: int, n: nat, a: nat, b: nat)
    ensures DownPresses(i, n, a + b) == DownPresses(DownPresses(i, n, a), n, b)
    decreases b
  {
    if b > 0 {
      DownPressesCompose(i, n, a, b - 1);
    }
  }

  /** Before the end of the list each press moves the highlight one place down. */
  lemma {:induction false} DownPressesAdvance(i: int, n: nat, k: nat)
    requires 0 <= i && i + k < n
    ensures DownPresses(i, n, k) == i + k
    decreases k
  {
    if k > 0 {
      DownPressesAdvance(i, n, k - 1);
    }
  }

  /** The highlight wraps circularly: `n` presses of ArrowDown over `n` options return to
      the option they started from. */
  lemma FullCycleReturns(i: int, n: nat)
    requires 0 <= i < n
    ensures DownPresses(i, n, n) == i
  {
    DownPressesAdvance(i, n, n - 1 - i);
    DownPressesCompose(i, n, n - 1 - i, 1 + i);
    DownPressesCompose(n - 1, n, 1, i);
    assert DownPresses(n - 1, n, 1) == 0;
    DownPressesAdvance(0, n, i);
  }

  // ---------------------------------------------------------------------------------
  // The query and its debounced search

  /** The part of the state the search effect reads and writes. */
  datatype SearchState = SearchState(query: string, options: seq<LabeledOption>, pending: Option<string>)

  /** `setQuery(v)` followed by the search effect. React re-runs the effect only when the
      query really changes; its cleanup first clears the timer armed for the previous query;
      a blank query then clears the options, any other query arms a timer for itself. */
  function QueryChanged(s: SearchState, v: string): (t: SearchState)
    ensures t.query == v
    ensures v == s.query ==> t == s
    ensures v != s.query && IsBlank(v) ==> t.options == [] && t.pending == None
    ensures v != s.query && !IsBlank(v) ==> t.options == s.options && t.pending == Some(v)
  {
    if v == s.query then s
    else if IsBlank(v) then SearchState(v, [], None)
    else SearchState(v, s.options, Some(v))
  }

  /** Only the latest query can be pending: the previous timer never survives a change. */
  lemma OnlyLatestQueryPending(s: SearchState, vs: seq<string>)
    requires |vs| >= 1
    requires s.pending.Some? ==> s.pending.value == s.query
    ensures var t := Typed(s, vs);
            t.query == vs[|vs| - 1] && (t.pending.Some? ==> t.pending.value == vs[|vs| - 1])
  {
    TypedKeepsPendingCurrent(s, vs);
  }

  /** The state after the query is set to each of `vs` in turn. */
  function Typed(s: SearchState, vs: seq<string>): (t: SearchState)
    ensures vs != [] ==> t.query == vs[|vs| - 1]
    decreases |vs|
  {
    if vs == [] then s else QueryChanged(Typed(s, vs[..|vs| - 1]), vs[|vs| - 1])
  }

  lemma {:induction false} TypedKeepsPendingCurrent(s: SearchState, vs: seq<string>)
    requires s.pending.Some? ==> s.pending.value == s.query
    ensures var t := Typed(s, vs); t.pending.Some? ==> t.pending.value == t.query
    decreases |vs|
  {
    if vs != [] {
      TypedKeepsPendingCurrent(s, vs[..|vs| - 1]);
    }
  }

  datatype Key = ArrowDown | ArrowUp | Enter | Escape | OtherKey

  /** The widget. `selections` records the `onSelect` calls and `fetches` the
      `fetchOptions` calls, in order. */
  class Widget {
    var isOpen: bool
    var options: seq<LabeledOption>
    var query: string
    var highlightedIndex: int
    var pending: Option<string>
    var selections: seq<Option<LabeledOption>>
    var fetches: seq<string>

    /** The highlight is an option index or -1; an armed timer is for the current,
        non-blank query; a blank query shows no options and arms no timer. */
    predicate Valid()
      reads this
    {
      && highlightedIndex >= -1
      && (pending.Some? ==> pending.value == query && !IsBlank(query))
      && (IsBlank(query) ==> options == [] && pending == None)
    }

    function Search(): SearchState
      reads this
    {
      SearchState(query, options, pending)
    }

    /** Mounting with `selectedValue`: closed, nothing highlighted or fetched, and the query
        synced to the selected option's label. */
    constructor (selectedValue: Option<LabeledOption>)
      ensures Valid()
      ensures !isOpen && highlightedIndex == -1 && selections == [] && fetches == []
      ensures Search() == QueryChanged(SearchState("", [], None), LabelOf(selectedValue))
    {
      isOpen := false;
      options := [];
      query := "";
      highlightedIndex := -1;
      pending := None;
      selections := [];
      fetches := [];
      new;
      SetQuery(LabelOf(selectedValue));
    }

    /** `setQuery(v)` and the search effect it triggers. */
    method SetQuery(v: string)
      requires Valid()
      modifies this`query, this`options, this`pending
      ensures Valid()
      ensures Search() == QueryChanged(old(Search()), v)
    {
      if v != query {
        query := v;
        pending := None;
        if IsBlank(v) {
          options := [];
        } else {
          pending := Some(v);
        }
      }
    }

    /** The debounce timer fires: `fetchOptions` is called with the pending query and its
        answer (`None` when it rejects) replaces the options. */
    method TimerFires(answer: Option<seq<LabeledOption>>)
      requires Valid()
      modifies this`options, this`pending, this`fetches
      ensures Valid()
      ensures old(pending).None? ==> options == old(options) && pending == None && fetches == old(fetches)
      ensures old(pending).Some? ==>
                fetches == old(fetches) + [old(pending).value] && options == answer.GetOr([]) && pending == None
    {
      if pending.Some? {
        fetches := fetches + [pending.value];
        options := answer.GetOr([]);
        pending := None;
      }
    }

    /** `handleInputChange(v)`: the query becomes `v`; a closed dropdown opens for a
        non-blank value; an open one stays open. */
    method HandleInputChange(v: string)
      requires Valid()
      modifies this`query, this`options, this`pending, this`isOpen
      ensures Valid()
      ensures Search() == QueryChanged(old(Search()), v)
      ensures isOpen == (old(isOpen) || !IsBlank(v))
    {
      SetQuery(v);
      if !isOpen && !IsBlank(v) {
        isOpen := true;
      }
    }

    /** `handleSelect(o)`: one `onSelect(o)` call, the query becomes the label, the dropdown
        closes and nothing is highlighted. */
    method HandleSelect(o: LabeledOption)
      requires Valid()
      modifies this`query, this`options, this`pending, this`isOpen, this`highlightedIndex, this`selections
      ensures Valid()
      ensures selections == old(selections) + [Some(o)]
      ensures Search() == QueryChanged(old(Search()), o.caption)
      ensures !isOpen && highlightedIndex == -1
    {
      selections := selections + [Some(o)];
      SetQuery(o.caption);
      isOpen := false;
      highlightedIndex := -1;
    }

    /** `handleClear`: one `onSelect(null)` call, an empty query and no options. */
    method HandleClear()
      requires Valid()
      modifies this`query, this`options, this`pending, this`selections
      ensures Valid()
      ensures selections == old(selections) + [None]
      ensures query == "" && options == [] && pending == None
    {
      selections := selections + [None];
      SetQuery("");
      options := [];
    }

    /** The effect on `selectedValue`: the query becomes its label, or empty when none. */
    method SyncSelectedValue(selectedValue: Option<LabeledOption>)
      requires Valid()
      modifies this`query, this`options, this`pending
      ensures Valid()
      ensures Search() == QueryChanged(old(Search()), LabelOf(selectedValue))
    {
      SetQuery(LabelOf(selectedValue));
    }

    /** The pointer enters the option at index `i` of the shown list. */
    method HandleMouseEnter(i: nat)
      requires Valid()
      requires i < |options|
      modifies this`highlightedIndex
      ensures Valid() && highlightedIndex == i
    {
      highlightedIndex := i;
    }

    /** A key press. Nothing happens while the dropdown is closed. ArrowDown and ArrowUp
        move the highlight round the list; Enter selects the highlighted option if there is
        one; Escape closes the dropdown. */
    method HandleKeyDown(key: Key)
      requires Valid()
      modifies this
      ensures Valid()
      ensures !old(isOpen) ==> unchanged(this)
      ensures old(isOpen) && (key == ArrowDown || key == ArrowUp) ==>
                && highlightedIndex == (if key == ArrowDown then NextIndex else PrevIndex)(old(highlightedIndex), |options|)
                && Search() == old(Search()) && isOpen && selections == old(selections) && fetches == old(fetches)
      ensures old(isOpen) && key == Enter && 0 <= old(highlightedIndex) < |old(options)| ==>
                var o := old(options)[old(highlightedIndex)];
                && selections == old(selections) + [Some(o)]
                && Search() == QueryChanged(old(Search()), o.caption)
                && !isOpen && highlightedIndex == -1 && fetches == old(fetches)
      ensures old(isOpen) && key == Enter && !(0 <= old(highlightedIndex) < |old(options)|) ==> unchanged(this)
      ensures old(isOpen) && key == Escape ==>
                && !isOpen && Search() == old(Search()) && highlightedIndex == old(highlightedIndex)
                && selections == old(selections) && fetches == old(fetches)
      ensures old(isOpen) && key == OtherKey ==> unchanged(this)
    {
      if !isOpen {
        return;
      }
      match key {
        case ArrowDown =>
          highlightedIndex := NextIndex(highlightedIndex, |options|);
        case ArrowUp =>
          highlightedIndex := PrevIndex(highlightedIndex, |options|);
        case Enter =>
          if 0 <= highlightedIndex < |options| {
            HandleSelect(options[highlightedIndex]);
          }
        case Escape =>
          isOpen := false;
        case OtherKey =>
      }
    }
  }

  /** The label an option shows, or the empty text for no option. */
  function LabelOf(o: Option<LabeledOption>): string {
    match o
    case Some(option) => option.caption
    case None => ""
  }

  /** Typing "s", "st", "sta" before the timer fires leads to exactly one fetch, for the
      final text. */
  method TypingBurstFetchesOnce() returns (calls: seq<string>)
    ensures calls == ["sta"]
  {
    assert !IsBlank("s") && !IsBlank("st") && !IsBlank("sta") by {
      assert !IsWhitespace('s');
      assert "s"[0] == 's' && "st"[0] == 's' && "sta"[0] == 's';
    }
    var w := new Widget(None);
    w.HandleInputChange("s");
    w.HandleInputChange("st");
    w.HandleInputChange("sta");
    w.TimerFires(Some([]));
    calls := w.fetches;
  }
}
