/**
 * The dashboard host: the search and owner filter over the transaction list,
 * the trend chart's points, and the list updates and form state behind the
 * add/edit modal and the delete button. The Supabase calls are left to the
 * caller: `parseFloat`, the date label of a timestamp and the record the
 * insert returns are parameters.
 */
module App {
  import opened Wrappers
  import opened Records

  // ---------------------------------------------------------------------------
  // Filtering
  // ---------------------------------------------------------------------------

  /** `ts.filter(keep)`: the kept transactions in their original order. */
  function Filter(ts: seq<Transaction>, keep: Transaction -> bool): (r: seq<Transaction>)
    ensures |r| <= |ts|
  {
    if ts == [] then []
    else
      var rest := Filter(ts[..|ts| - 1], keep);
      var t := ts[|ts| - 1];
      if keep(t) then rest + [t] else rest
  }

  /** `idx` picks out `a` from `b` at strictly increasing positions. */
  predicate IsEmbedding(idx: seq<int>, a: seq<Transaction>, b: seq<Transaction>)
  {
    && |idx| == |a|
    && (forall k :: 0 <= k < |idx| ==> 0 <= idx[k] < |b| && a[k] == b[idx[k]])
    && (forall k, l :: 0 <= k < l < |idx| ==> idx[k] < idx[l])
  }

  /** `a` is an order-preserving subsequence of `b`. */
  ghost predicate InOrder(a: seq<Transaction>, b: seq<Transaction>)
  {
    exists idx :: IsEmbedding(idx, a, b)
  }

  /** A transaction survives the filter exactly when it is in the list and kept. */
  lemma {:induction false} FilterMembers(ts: seq<Transaction>, keep: Transaction -> bool)
    ensures forall t :: t in Filter(ts, keep) <==> t in ts && keep(t)
  {
    if ts != [] {
      var p := ts[..|ts| - 1];
      FilterMembers(p, keep);
      assert ts == p + [ts[|ts| - 1]];
    }
  }

  /** Each kept transaction survives as many times as it occurs; the others not at all. */
  lemma {:induction false} FilterCounts(ts: seq<Transaction>, keep: Transaction -> bool)
    ensures forall t :: multiset(Filter(ts, keep))[t] == if keep(t) then multiset(ts)[t] else 0
  {
    if ts != [] {
      var p, u := ts[..|ts| - 1], ts[|ts| - 1];
      assert p + [u] == ts;
      FilterCounts(p, keep);
      assert multiset(ts) == multiset(p) + multiset{u};
    }
  }

  /** Filtering never reorders. */
  lemma {:induction false} FilterInOrder(ts: seq<Transaction>, keep: Transaction -> bool)
    ensures InOrder(Filter(ts, keep), ts)
  {
    if ts == [] {
      assert IsEmbedding([], Filter(ts, keep), ts);
    } else {
      var p, t := ts[..|ts| - 1], ts[|ts| - 1];
      assert p + [t] == ts;
      FilterInOrder(p, keep);
      var idx :| IsEmbedding(idx, Filter(p, keep), p);
      if keep(t) {
        EmbeddingKeeps(idx, Filter(p, keep), p, t);
      } else {
        EmbeddingSkips(idx, Filter(p, keep), p, t);
      }
    }
  }

  lemma EmbeddingKeeps(idx: seq<int>, a: seq<Transaction>, b: seq<Transaction>, t: Transaction)
    requires IsEmbedding(idx, a, b)
    ensures IsEmbedding(idx + [|b|], a + [t], b + [t])
  {
    var idx', a', b' := idx + [|b|], a + [t], b + [t];
    forall k | 0 <= k < |idx'|
      ensures 0 <= idx'[k] < |b'| && a'[k] == b'[idx'[k]]
    {
      if k < |idx| {
        assert idx'[k] == idx[k] && a'[k] == a[k] && b'[idx[k]] == b[idx[k]];
      }
    }
  }

  lemma EmbeddingSkips(idx: seq<int>, a: seq<Transaction>, b: seq<Transaction>, t: Transaction)
    requires IsEmbedding(idx, a, b)
    ensures IsEmbedding(idx, a, b + [t])
  {
    forall k | 0 <= k < |idx|
      ensures a[k] == (b + [t])[idx[k]]
    {
      assert (b + [t])[idx[k]] == b[idx[k]];
    }
  }

  /** A filter that keeps every item returns the list itself. */
  lemma {:induction false} FilterKeepsAll(ts: seq<Transaction>, keep: Transaction -> bool)
    requires forall i :: 0 <= i < |ts| ==> keep(ts[i])
    ensures Filter(ts, keep) == ts
  {
    if ts != [] {
      var p := ts[..|ts| - 1];
      assert forall i :: 0 <= i < |p| ==> p[i] == ts[i];
      FilterKeepsAll(p, keep);
    }
  }

  // ---------------------------------------------------------------------------
  // Search and owner filter
  // ---------------------------------------------------------------------------

  /** ASCII `toLowerCase` of one character. */
  function LowerChar(c: char): char
  {
    if 'A' <= c <= 'Z' then (c as int - 'A' as int + 'a' as int) as char else c
  }

  /** ASCII `toLowerCase`. */
  function Lower(s: string): (r: string)
    ensures |r| == |s|
    ensures forall i :: 0 <= i < |s| ==> ('A' <= s[i] <= 'Z' ==> 'a' <= r[i] <= 'z') && (!('A' <= s[i] <= 'Z') ==> r[i] == s[i])
    ensures forall i :: 0 <= i < |s| && 'A' <= s[i] <= 'Z' ==> r[i] as int == s[i] as int + 32
  {
    seq(|s|, i requires 0 <= i < |s| => LowerChar(s[i]))
  }

  /** `s.includes(q)`: `q` occurs in `s` as a contiguous piece. */
  predicate Includes(s: string, q: string)
  {
    exists i :: 0 <= i <= |s| && OccursAt(s, q, i)
  }

  predicate OccursAt(s: string, q: string, i: nat)
  {
    i + |q| <= |s| && s[i..i + |q|] == q
  }

  /** The names the owner toggle can pick; `Both` is not one of them. */
  type Person = o: Owner | o != Both witness John

  /** The `dashboardFilter` toggle: 'All', 'John' or 'Hannah'. */
  datatype OwnerFilter = All | Only(person: Person)

  predicate MatchesSearch(t: Transaction, q: string)
  {
    Includes(Lower(t.description), Lower(q)) || Includes(Lower(t.category), Lower(q))
  }

  /** `dashboardFilter === 'All' ? true : t.owner === dashboardFilter`. */
  predicate MatchesOwner(t: Transaction, f: OwnerFilter)
  {
    match f
    case All => true
    case Only(p) => t.owner == Some(p)
  }

  /** `filteredTransactions`: what every panel of the dashboard is given. */
  function Visible(ts: seq<Transaction>, q: string, f: OwnerFilter): seq<Transaction>
  {
    Filter(ts, (t: Transaction) => MatchesSearch(t, q) && MatchesOwner(t, f))
  }

  /**
   * 'All' keeps every search match; a name keeps only the matches owned by
   * that name, so shared and owner-less transactions drop out. The result
   * keeps the list's order.
   */
  lemma VisibleMembers(ts: seq<Transaction>, q: string, f: OwnerFilter, t: Transaction)
    ensures f == All ==> (t in Visible(ts, q, f) <==> t in ts && MatchesSearch(t, q))
    ensures f.Only? ==> (t in Visible(ts, q, f) <==> t in ts && MatchesSearch(t, q) && t.owner == Some(f.person))
    ensures t in Visible(ts, q, f) && (t.owner == None || t.owner == Some(Both)) ==> f == All
    ensures InOrder(Visible(ts, q, f), ts)
  {
    var keep := (t: Transaction) => MatchesSearch(t, q) && MatchesOwner(t, f);
    FilterMembers(ts, keep);
    FilterInOrder(ts, keep);
  }

  lemma EmptyQueryMatches(t: Transaction)
    ensures MatchesSearch(t, "")
  {
    assert Lower("") == "";
    assert OccursAt(Lower(t.description), "", 0);
  }

  /** An empty search with 'All' shows the whole list. */
  lemma EmptySearchShowsAll(ts: seq<Transaction>)
    ensures Visible(ts, "", All) == ts
  {
    forall i | 0 <= i < |ts| {
      EmptyQueryMatches(ts[i]);
    }
    FilterKeepsAll(ts, (t: Transaction) => MatchesSearch(t, "") && MatchesOwner(t, All));
  }

  // ---------------------------------------------------------------------------
  // The trend chart
  // ---------------------------------------------------------------------------

  datatype ChartPoint = ChartPoint(date: string, amount: real, kind: Kind)

  /** One point: `format(parseISO(created_at), 'MMM d')`, the amount and the type. */
  function Point(t: Transaction, dateLabel: string -> string): ChartPoint
  {
    ChartPoint(dateLabel(t.createdAt), t.amount, t.kind)
  }

  /** `[...filtered].reverse().map(…)`: the list is newest first, the chart oldest first. */
  function ChartData(vis: seq<Transaction>, dateLabel: string -> string): (r: seq<ChartPoint>)
    ensures |r| == |vis|
  {
    if vis == [] then [] else [Point(vis[|vis| - 1], dateLabel)] + ChartData(vis[..|vis| - 1], dateLabel)
  }

  /** The i-th point is the i-th transaction from the end: its date label, amount and type. */
  lemma {:induction false} ChartDataReversed(vis: seq<Transaction>, dateLabel: string -> string)
    ensures forall i :: 0 <= i < |vis| ==> ChartData(vis, dateLabel)[i] == Point(vis[|vis| - 1 - i], dateLabel)
  {
    if vis != [] {
      var n, p := |vis|, vis[..|vis| - 1];
      ChartDataReversed(p, dateLabel);
      var c := ChartData(vis, dateLabel);
      forall i | 0 <= i < n
        ensures c[i] == Point(vis[n - 1 - i], dateLabel)
      {
        if i > 0 {
          assert c[i] == ChartData(p, dateLabel)[i - 1];
          assert p[|p| - 1 - (i - 1)] == vis[n - 1 - i];
        }
      }
    }
  }

  // ---------------------------------------------------------------------------
  // List updates
  // ---------------------------------------------------------------------------

  /** `{ ...t, description, amount, category, owner }`. */
  function Patched(t: Transaction, desc: string, amount: real, category: string, owner: Owner): Transaction
  {
    t.(description := desc, amount := amount, category := category, owner := Some(owner))
  }

  /** The map's callback: the patched record for the edited id, the record itself otherwise. */
  function EditedItem(t: Transaction, id: string, desc: string, amount: real, category: string, owner: Owner): Transaction
  {
    if t.id == id then Patched(t, desc, amount, category, owner) else t
  }

  /** `prev.map(t => t.id === id ? { ...t, … } : t)`. */
  function Edited(ts: seq<Transaction>, id: string, desc: string, amount: real, category: string, owner: Owner): (r: seq<Transaction>)
    ensures |r| == |ts|
  {
    if ts == [] then []
    else Edited(ts[..|ts| - 1], id, desc, amount, category, owner) + [EditedItem(ts[|ts| - 1], id, desc, amount, category, owner)]
  }

  lemma {:induction false} EditedAt(ts: seq<Transaction>, id: string, desc: string, amount: real, category: string, owner: Owner)
    ensures forall i :: 0 <= i < |ts| ==> Edited(ts, id, desc, amount, category, owner)[i] == EditedItem(ts[i], id, desc, amount, category, owner)
  {
    if ts != [] {
      var p := ts[..|ts| - 1];
      EditedAt(p, id, desc, amount, category, owner);
      var r := Edited(ts, id, desc, amount, category, owner);
      forall i | 0 <= i < |ts|
        ensures r[i] == EditedItem(ts[i], id, desc, amount, category, owner)
      {
        if i < |p| {
          assert r[i] == Edited(p, id, desc, amount, category, owner)[i] && ts[i] == p[i];
        }
      }
    }
  }

  /**
   * Only the items with the edited id change, and of those only the four
   * form fields; their id, type and timestamp stay.
   */
  lemma EditChangesOnlyThatItem(ts: seq<Transaction>, id: string, desc: string, amount: real, category: string, owner: Owner)
    ensures |Edited(ts, id, desc, amount, category, owner)| == |ts|
    ensures forall i :: 0 <= i < |ts| && ts[i].id != id ==> Edited(ts, id, desc, amount, category, owner)[i] == ts[i]
    ensures forall i :: 0 <= i < |ts| && ts[i].id == id ==>
      && Edited(ts, id, desc, amount, category, owner)[i].id == ts[i].id
      && Edited(ts, id, desc, amount, category, owner)[i].kind == ts[i].kind
      && Edited(ts, id, desc, amount, category, owner)[i].createdAt == ts[i].createdAt
      && Edited(ts, id, desc, amount, category, owner)[i].description == desc
      && Edited(ts, id, desc, amount, category, owner)[i].amount == amount
      && Edited(ts, id, desc, amount, category, owner)[i].category == category
      && Edited(ts, id, desc, amount, category, owner)[i].owner == Some(owner)
  {
    EditedAt(ts, id, desc, amount, category, owner);
  }

  /** `prev.filter(t => t.id !== id)`. */
  function WithoutId(ts: seq<Transaction>, id: string): seq<Transaction>
  {
    Filter(ts, (t: Transaction) => t.id != id)
  }

  /** Deleting removes every item with the id and keeps the rest, in order. */
  lemma WithoutIdMembers(ts: seq<Transaction>, id: string)
    ensures forall t :: t in WithoutId(ts, id) <==> t in ts && t.id != id
    ensures InOrder(WithoutId(ts, id), ts)
    ensures forall t :: multiset(WithoutId(ts, id))[t] == if t.id != id then multiset(ts)[t] else 0
  {
    FilterCounts(ts, (t: Transaction) => t.id != id);
    FilterMembers(ts, (t: Transaction) => t.id != id);
    FilterInOrder(ts, (t: Transaction) => t.id != id);
  }

  // ---------------------------------------------------------------------------
  // Screen state
  // ---------------------------------------------------------------------------

  /** `activeModal`: null, 'income', 'expense' or 'edit'. */
  datatype Modal = NoModal | NewEntry(kind: Kind) | EditEntry

  /** What a save asks the server for; the insert carries `activeModal` as its type. */
  datatype SaveRequest =
    | NoRequest
    | UpdateRequest(id: string, description: string, amount: real, category: string, owner: Owner)
    | InsertRequest(modal: Modal, description: string, amount: real, category: string, owner: Owner)

  const DefaultCategory: string := "Uncategorized"

  datatype Screen = Screen(
    transactions: seq<Transaction>,
    activeModal: Modal,
    editingId: Option<string>,
    descInput: string,
    amountInput: string,
    categoryInput: string,
    ownerInput: Owner,
    searchQuery: string,
    dashboardFilter: OwnerFilter)

  /** The state at mount, before the first fetch. */
  const InitialScreen: Screen := Screen([], NoModal, None, "", "", DefaultCategory, Both, "", All)

  /** `closeModal`: the form back to its defaults; the list and the search stay. */
  function Closed(s: Screen): Screen
  {
    s.(activeModal := NoModal, editingId := None, descInput := "", amountInput := "",
       categoryInput := DefaultCategory, ownerInput := Both)
  }

  /** `openNew(kind)`: `closeModal()`, then the modal for that kind. */
  function OpenedNew(s: Screen, k: Kind): Screen
  {
    Closed(s).(activeModal := NewEntry(k))
  }

  /** `openEdit(t)`; `amountText` is `t.amount.toString()`. */
  function OpenedEdit(s: Screen, t: Transaction, amountText: string): Screen
  {
    s.(activeModal := EditEntry, editingId := Some(t.id), descInput := t.description, amountInput := amountText,
       categoryInput := if t.category == "" then DefaultCategory else t.category,
       ownerInput := t.owner.GetOr(Both))
  }

  /** The save works on an existing item when editing with a non-empty id (`editingId` is truthy). */
  predicate SavesEdit(s: Screen)
  {
    s.activeModal == EditEntry && s.editingId.Some? && s.editingId.value != ""
  }

  /** What `handleSave` sends: nothing when the description or the amount text is empty. */
  function RequestOf(s: Screen, parseFloat: string -> real): (r: SaveRequest)
    ensures r == NoRequest <==> s.descInput == "" || s.amountInput == ""
    ensures r.UpdateRequest? <==> r != NoRequest && SavesEdit(s)
    ensures r.UpdateRequest? ==> s.editingId.Some? && r.id == s.editingId.value
    ensures r.InsertRequest? ==> r.modal == s.activeModal
    ensures r != NoRequest ==>
      && r.description == s.descInput && r.amount == parseFloat(s.amountInput)
      && r.category == s.categoryInput && r.owner == s.ownerInput
  {
    if s.descInput == "" || s.amountInput == "" then NoRequest
    else if SavesEdit(s) then
      UpdateRequest(s.editingId.value, s.descInput, parseFloat(s.amountInput), s.categoryInput, s.ownerInput)
    else
      InsertRequest(s.activeModal, s.descInput, parseFloat(s.amountInput), s.categoryInput, s.ownerInput)
  }

  /** `handleSave`; `inserted` is the record the insert returned, if any. */
  function Saved(s: Screen, parseFloat: string -> real, inserted: Option<Transaction>): Screen
  {
    match RequestOf(s, parseFloat)
    case NoRequest => s
    case UpdateRequest(id, desc, amount, category, owner) =>
      Closed(s.(transactions := Edited(s.transactions, id, desc, amount, category, owner)))
    case InsertRequest(_, _, _, _, _) =>
      Closed(s.(transactions := if inserted.Some? then [inserted.value] + s.transactions else s.transactions))
  }

  /** `handleDelete(id)`; `confirmed` is the answer to the confirmation dialog. */
  function Deleted(s: Screen, id: string, confirmed: bool): Screen
  {
    if confirmed then s.(transactions := WithoutId(s.transactions, id)) else s
  }

  // ---------------------------------------------------------------------------
  // Properties of the screen
  // ---------------------------------------------------------------------------

  /** Closing the modal resets every form field and keeps the list, the search and the filter. */
  lemma CloseResets(s: Screen)
    ensures Closed(s).activeModal == NoModal && Closed(s).editingId == None
    ensures Closed(s).descInput == "" && Closed(s).amountInput == ""
    ensures Closed(s).categoryInput == "Uncategorized" && Closed(s).ownerInput == Both
    ensures Closed(s).transactions == s.transactions
    ensures Closed(s).searchQuery == s.searchQuery && Closed(s).dashboardFilter == s.dashboardFilter
    ensures Closed(Closed(s)) == Closed(s)
  {
  }

  /** A new entry starts from the default form, whatever was typed before. */
  lemma OpenNewStartsClean(s: Screen, k: Kind)
    ensures OpenedNew(s, k) == OpenedNew(Closed(s), k)
    ensures OpenedNew(s, k).activeModal == NewEntry(k) && OpenedNew(s, k).editingId == None
    ensures OpenedNew(s, k).descInput == "" && OpenedNew(s, k).categoryInput == "Uncategorized"
  {
  }

  /** Editing fills the form from the item, with a missing category or owner defaulted. */
  lemma OpenEditDefaults(s: Screen, t: Transaction, amountText: string)
    ensures SavesEdit(OpenedEdit(s, t, amountText)) <==> t.id != ""
    ensures OpenedEdit(s, t, amountText).categoryInput == if t.category == "" then "Uncategorized" else t.category
    ensures t.owner == None ==> OpenedEdit(s, t, amountText).ownerInput == Both
    ensures t.owner.Some? ==> OpenedEdit(s, t, amountText).ownerInput == t.owner.value
  {
  }

  /** Saving with an empty description or amount text changes nothing, not even the open form. */
  lemma SaveNeedsInputs(s: Screen, parseFloat: string -> real, inserted: Option<Transaction>)
    requires s.descInput == "" || s.amountInput == ""
    ensures Saved(s, parseFloat, inserted) == s
  {
  }

  /**
   * Saving an edit applies the form to the items with the edited id, keeps the
   * length and everything else, and closes the form.
   */
  lemma SaveEdit(s: Screen, parseFloat: string -> real, inserted: Option<Transaction>)
    requires s.descInput != "" && s.amountInput != "" && SavesEdit(s)
    ensures Saved(s, parseFloat, inserted) == Closed(s.(transactions :=
      Edited(s.transactions, s.editingId.value, s.descInput, parseFloat(s.amountInput), s.categoryInput, s.ownerInput)))
    ensures |Saved(s, parseFloat, inserted).transactions| == |s.transactions|
    ensures forall i :: 0 <= i < |s.transactions| && s.transactions[i].id != s.editingId.value ==>
      Saved(s, parseFloat, inserted).transactions[i] == s.transactions[i]
    ensures forall i :: 0 <= i < |s.transactions| && s.transactions[i].id == s.editingId.value ==>
      Saved(s, parseFloat, inserted).transactions[i]
        == Patched(s.transactions[i], s.descInput, parseFloat(s.amountInput), s.categoryInput, s.ownerInput)
  {
    var id := s.editingId.value;
    var amount := parseFloat(s.amountInput);
    EditedAt(s.transactions, id, s.descInput, amount, s.categoryInput, s.ownerInput);
  }

  /** Saving a new entry puts the returned record in front of the list, then closes the form. */
  lemma SaveInsert(s: Screen, parseFloat: string -> real, inserted: Option<Transaction>)
    requires s.descInput != "" && s.amountInput != "" && !SavesEdit(s)
    ensures RequestOf(s, parseFloat).InsertRequest? && RequestOf(s, parseFloat).modal == s.activeModal
    ensures inserted.Some? ==> Saved(s, parseFloat, inserted).transactions == [inserted.value] + s.transactions
    ensures inserted == None ==> Saved(s, parseFloat, inserted).transactions == s.transactions
    ensures Saved(s, parseFloat, inserted).activeModal == NoModal
  {
  }

  /**
   * Opening an item for editing and saving the untouched form leaves the list
   * as it was, when ids are unique, the amount text parses back to the amount
   * and the item has a category and an owner. With an empty description or
   * amount text the save does nothing, which keeps the list too.
   */
  lemma EditUnchangedKeepsList(s: Screen, i: nat, amountText: string, parseFloat: string -> real, inserted: Option<Transaction>)
    requires i < |s.transactions|
    requires forall j, k :: 0 <= j < |s.transactions| && 0 <= k < |s.transactions| && s.transactions[j].id == s.transactions[k].id ==> j == k
    requires s.transactions[i].id != ""
    requires parseFloat(amountText) == s.transactions[i].amount
    requires s.transactions[i].category != "" && s.transactions[i].owner.Some?
    ensures Saved(OpenedEdit(s, s.transactions[i], amountText), parseFloat, inserted).transactions == s.transactions
  {
    var t := s.transactions[i];
    var e := OpenedEdit(s, t, amountText);
    if t.description == "" || amountText == "" {
      SaveNeedsInputs(e, parseFloat, inserted);
      return;
    }
    SaveEdit(e, parseFloat, inserted);
    var r := Saved(e, parseFloat, inserted).transactions;
    forall j | 0 <= j < |s.transactions|
      ensures r[j] == s.transactions[j]
    {
      if s.transactions[j].id == t.id {
        assert j == i;
      }
    }
  }

  /** A confirmed delete removes exactly the items with the id, in order; a declined one changes nothing. */
  lemma DeleteRemoves(s: Screen, id: string, confirmed: bool)
    ensures !confirmed ==> Deleted(s, id, confirmed) == s
    ensures confirmed ==> forall t :: t in Deleted(s, id, confirmed).transactions <==> t in s.transactions && t.id != id
    ensures InOrder(Deleted(s, id, confirmed).transactions, s.transactions)
    ensures confirmed ==> forall t ::
      multiset(Deleted(s, id, confirmed).transactions)[t] == if t.id != id then multiset(s.transactions)[t] else 0
    ensures Deleted(s, id, confirmed).activeModal == s.activeModal
  {
    if confirmed {
      WithoutIdMembers(s.transactions, id);
    } else {
      assert IsEmbedding(seq(|s.transactions|, k => k), s.transactions, s.transactions);
    }
  }

  // ---------------------------------------------------------------------------
  // The component
  // ---------------------------------------------------------------------------

  /** The dashboard's `useState` slots for the list, the form, the search and the owner toggle. */
  class Dashboard {
    var transactions: seq<Transaction>
    var activeModal: Modal
    var editingId: Option<string>
    var descInput: string
    var amountInput: string
    var categoryInput: string
    var ownerInput: Owner
    var searchQuery: string
    var dashboardFilter: OwnerFilter

    function State(): Screen
      reads this
    {
      Screen(transactions, activeModal, editingId, descInput, amountInput, categoryInput, ownerInput,
             searchQuery, dashboardFilter)
    }

    /** `filteredTransactions`. */
    function FilteredTransactions(): (r: seq<Transaction>)
      reads this
      ensures r == Visible(transactions, searchQuery, dashboardFilter)
      ensures |r| <= |transactions|
    {
      Visible(transactions, searchQuery, dashboardFilter)
    }

    constructor ()
      ensures State() == InitialScreen
    {
      transactions := [];
      activeModal := NoModal;
      editingId := None;
      descInput := "";
      amountInput := "";
      categoryInput := DefaultCategory;
      ownerInput := Both;
      searchQuery := "";
      dashboardFilter := All;
    }

    /** The list a fetch returned (`setTransactions(data)`). */
    method Load(data: seq<Transaction>)
      modifies this
      ensures State() == old(State()).(transactions := data)
    {
      transactions := data;
    }

    method SetSearch(q: string)
      modifies this
      ensures State() == old(State()).(searchQuery := q)
    {
      searchQuery := q;
    }

    method SetFilter(f: OwnerFilter)
      modifies this
      ensures State() == old(State()).(dashboardFilter := f)
    {
      dashboardFilter := f;
    }

    method CloseModal()
      modifies this
      ensures State() == Closed(old(State()))
    {
      activeModal := NoModal;
      editingId := None;
      descInput := "";
      amountInput := "";
      categoryInput := DefaultCategory;
      ownerInput := Both;
    }

    method OpenNew(k: Kind)
      modifies this
      ensures State() == OpenedNew(old(State()), k)
    {
      CloseModal();
      activeModal := NewEntry(k);
    }

    method OpenEdit(t: Transaction, amountText: string)
      modifies this
      ensures State() == OpenedEdit(old(State()), t, amountText)
    {
      descInput := t.description;
      amountInput := amountText;
      categoryInput := if t.category == "" then DefaultCategory else t.category;
      ownerInput := t.owner.GetOr(Both);
      editingId := Some(t.id);
      activeModal := EditEntry;
    }

    /** `handleSave`: returns the request it sends; `inserted` is the server's reply to an insert. */
    method HandleSave(parseFloat: string -> real, inserted: Option<Transaction>) returns (req: SaveRequest)
      modifies this
      ensures req == RequestOf(old(State()), parseFloat)
      ensures State() == Saved(old(State()), parseFloat, inserted)
    {
      if descInput == "" || amountInput == "" {
        return NoRequest;
      }
      var amount := parseFloat(amountInput);
      if activeModal == EditEntry && editingId.Some? && editingId.value != "" {
        req := UpdateRequest(editingId.value, descInput, amount, categoryInput, ownerInput);
        transactions := Edited(transactions, editingId.value, descInput, amount, categoryInput, ownerInput);
      } else {
        req := InsertRequest(activeModal, descInput, amount, categoryInput, ownerInput);
        if inserted.Some? {
          transactions := [inserted.value] + transactions;
        }
      }
      CloseModal();
    }

    method HandleDelete(id: string, confirmed: bool)
      modifies this
      ensures State() == Deleted(old(State()), id, confirmed)
    {
      if confirmed {
        transactions := WithoutId(transactions, id);
      }
    }
  }
}
