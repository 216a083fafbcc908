/** The inventory screen without its rendering: the list filter, the id
    offered to a new listing, and the handlers that change the screen's state
    and call the synchronisation service. */
module PropertyManager {
  import opened Wrappers
  import opened Types
  import opened Seqs
  import opened Text
  import opened PropertyService

  /** The type filter: every type, or one of them. */
  datatype TypeFilter = All | OnlyType(kind: PropertyType)

  /** The listing passes the type filter. */
  predicate MatchesType(p: Property, selected: TypeFilter) {
    selected.All? || p.kind == selected.kind
  }

  /** The lower-cased title, location or id includes the lower-cased query. */
  predicate MatchesSearch(p: Property, query: string) {
    var q := LowerCase(query);
    Includes(LowerCase(p.title), q) || Includes(LowerCase(p.location), q) || Includes(LowerCase(p.id), q)
  }

  /** `filteredProperties`: the listings that pass both filters, in their
      original order. */
  function Filtered(items: seq<Property>, query: string, selected: TypeFilter): (r: seq<Property>)
    ensures IsSubsequence(r, items)
    ensures forall i :: 0 <= i < |r| ==> MatchesType(r[i], selected) && MatchesSearch(r[i], query)
    ensures forall i :: 0 <= i < |items| && MatchesType(items[i], selected) && MatchesSearch(items[i], query) ==> items[i] in r
    ensures selected.OnlyType? ==> forall i :: 0 <= i < |r| ==> r[i].kind == selected.kind
    ensures forall i :: 0 <= i < |items| ==>
      Count(r, items[i]) ==
        if MatchesType(items[i], selected) && MatchesSearch(items[i], query) then Count(items, items[i]) else 0
  {
    Filter(items, (p: Property) => MatchesType(p, selected) && MatchesSearch(p, query))
  }

  /** With every type selected and no query, nothing is filtered out. */
  lemma ClearedFiltersShowAll(items: seq<Property>)
    ensures Filtered(items, "", All) == items
  {
    forall i | 0 <= i < |items| ensures MatchesSearch(items[i], "") {
      IncludesEmpty(LowerCase(items[i].title));
    }
    FilterKeepsAll(items, (p: Property) => MatchesType(p, All) && MatchesSearch(p, ""));
  }

  /** The decimal digit for `d`. */
  function DigitChar(d: nat): (c: char)
    requires d < 10
    ensures '0' <= c <= '9'
  {
    ('0' as int + d) as char
  }

  /** The value of a decimal digit character. */
  function DigitValue(c: char): nat
    requires '0' <= c <= '9'
  {
    c as int - '0' as int
  }

  /** `String(n)` for a natural number: its decimal digits, most significant
      first, with no leading zero. */
  function Decimal(n: nat): (r: string)
    ensures |r| >= 1 && (n >= 10 ==> |r| >= 2) && (n >= 100 ==> |r| >= 3)
    ensures forall i :: 0 <= i < |r| ==> '0' <= r[i] <= '9'
    ensures n > 0 ==> r[0] != '0'
  {
    if n < 10 then [DigitChar(n)] else Decimal(n / 10) + [DigitChar(n % 10)]
  }

  /** The number a string of decimal digits denotes. */
  function ParseDecimal(s: string): nat
    requires forall i :: 0 <= i < |s| ==> '0' <= s[i] <= '9'
  {
    if s == [] then 0 else ParseDecimal(s[..|s| - 1]) * 10 + DigitValue(s[|s| - 1])
  }

  /** `padStart`: `s` preceded by as many `fill` characters as it takes to
      reach `width`; a longer `s` is left whole. */
  function PadStart(s: string, width: nat, fill: char): (r: string)
    ensures |r| == if |s| < width then width else |s|
    ensures r[|r| - |s|..] == s
    ensures forall i :: 0 <= i < |r| - |s| ==> r[i] == fill
  {
    if |s| < width then seq(width - |s|, _ => fill) + s else s
  }

  /** The id offered to a new listing: "PROP" and the decimal of
      `count + 10`, zero-padded to at least three digits. */
  function NextId(count: nat): string {
    "PROP" + PadStart(Decimal(count + 10), 3, '0')
  }

  /** Reading the digits of `n` back gives `n`. */
  lemma {:induction false} DecimalRoundTrip(n: nat)
    ensures ParseDecimal(Decimal(n)) == n
  {
    var s := Decimal(n);
    if n < 10 {
      assert s == [DigitChar(n)] && s[..0] == [];
    } else {
      DecimalRoundTrip(n / 10);
      assert s[..|s| - 1] == Decimal(n / 10) && s[|s| - 1] == DigitChar(n % 10);
      assert ParseDecimal(s) == (n / 10) * 10 + n % 10;
    }
  }

  /** A leading zero does not change the number a digit string denotes. */
  lemma {:induction false} LeadingZero(s: string)
    requires forall i :: 0 <= i < |s| ==> '0' <= s[i] <= '9'
    ensures ParseDecimal("0" + s) == ParseDecimal(s)
    decreases |s|
  {
    if s != [] {
      var t := "0" + s;
      assert t[..|t| - 1] == "0" + s[..|s| - 1];
      LeadingZero(s[..|s| - 1]);
    }
  }

  /** The zero-padded decimal of a two-digit or longer `n`: at least three
      digits that denote `n`, and exactly its digits, with no leading zero,
      from 100 on. */
  lemma PaddedDecimal(n: nat)
    requires n >= 10
    ensures var padded := PadStart(Decimal(n), 3, '0');
      && |padded| == (if |Decimal(n)| < 3 then 3 else |Decimal(n)|)
      && (forall i :: 0 <= i < |padded| ==> '0' <= padded[i] <= '9')
      && ParseDecimal(padded) == n
      && (n >= 100 ==> padded[0] != '0')
  {
    var digits := Decimal(n);
    var padded := PadStart(digits, 3, '0');
    DecimalRoundTrip(n);
    if |digits| < 3 {
      assert padded == "0" + digits by {
        assert |padded| == 3 && padded[0] == '0' && padded[1..] == digits;
      }
      LeadingZero(digits);
    } else {
      assert padded == digits;
    }
  }

  /** The offered id is "PROP" followed by digits that denote `count + 10`:
      three of them while that number is below 100, and otherwise exactly its
      decimal digits, with no leading zero. */
  lemma NextIdDenotes(count: nat)
    ensures var id := NextId(count);
      && |id| >= 7 && id[..4] == "PROP"
      && |id| == 4 + (if |Decimal(count + 10)| < 3 then 3 else |Decimal(count + 10)|)
      && (forall i :: 4 <= i < |id| ==> '0' <= id[i] <= '9')
      && ParseDecimal(id[4..]) == count + 10
      && (count + 10 >= 100 ==> id[4] != '0')
  {
    var padded := PadStart(Decimal(count + 10), 3, '0');
    var id := "PROP" + padded;
    PaddedDecimal(count + 10);
    assert id[..4] == "PROP" && id[4..] == padded;
  }

  /** Different counts give different ids. */
  lemma NextIdInjective(a: nat, b: nat)
    requires NextId(a) == NextId(b)
    ensures a == b
  {
    NextIdDenotes(a);
    NextIdDenotes(b);
  }

  /** The offered id depends only on the count, so it can already be taken:
      after PROP010 is deleted from [PROP010, PROP011], the offer is PROP011
      again. */
  lemma NextIdCanBeTaken(items: seq<Property>)
    requires |items| == 2 && items[0].id == "PROP010" && items[1].id == "PROP011"
    ensures var left := Removed(items, "PROP010");
      |left| == 1 && HasId(left, NextId(|left|))
  {
    var keep := (q: Property) => q.id != "PROP010";
    assert items[1..][1..] == [];
    assert Filter(items[1..], keep) == [items[1]];
    assert Removed(items, "PROP010") == [items[1]];
    assert Decimal(11) == "11";
    assert NextId(1) == "PROP011";
  }

  /** The inventory screen's state. */
  class Inventory {
    const readOnly: bool
    const store: ListingStore
    var properties: seq<Property>
    var loading: bool
    var searchQuery: string
    var selectedType: TypeFilter
    var showForm: bool
    var selectedProperty: Option<Property>
    var editingProperty: Option<Property>
    var deleteConfirmationId: Option<string>
    var isSaving: bool

    /** The listings on screen. */
    function Visible(): seq<Property>
      reads this
    {
      Filtered(properties, searchQuery, selectedType)
    }

    constructor (readOnly: bool, store: ListingStore)
      ensures this.readOnly == readOnly && this.store == store
      ensures properties == [] && loading && searchQuery == "" && selectedType == All
      ensures !showForm && selectedProperty == None && editingProperty == None
      ensures deleteConfirmationId == None && !isSaving
    {
      this.readOnly := readOnly;
      this.store := store;
      properties := [];
      loading := true;
      searchQuery := "";
      selectedType := All;
      showForm := false;
      selectedProperty := None;
      editingProperty := None;
      deleteConfirmationId := None;
      isSaving := false;
    }

    /** `loadProperties`: show whatever the service's read returns. */
    method LoadProperties(reply: Reply, save: Save)
      modifies this`properties, this`loading, store
      ensures store.cache == Fetched(reply).GetOr(old(store.cache))
      ensures Fetched(reply).Some? ==> store.slot == AfterSave(old(store.slot), store.cache, save)
      ensures Fetched(reply).None? ==> store.slot == old(store.slot)
      ensures store.effects == old(store.effects) +
        if Fetched(reply).Some? then [Send(GetAll), Persist(store.cache)] else [Send(GetAll)]
      ensures properties == store.cache && !loading
    {
      loading := true;
      var data := store.FetchAll(reply, save);
      properties := data;
      loading := false;
    }

    /** The "clear all filters" button. */
    method ClearFilters()
      modifies this`searchQuery, this`selectedType
      ensures searchQuery == "" && selectedType == All
      ensures Visible() == properties
    {
      searchQuery := "";
      selectedType := All;
      ClearedFiltersShowAll(properties);
    }

    /** `requestDelete`: ask for confirmation before deleting `id`. */
    method RequestDelete(id: string)
      modifies this`deleteConfirmationId
      ensures deleteConfirmationId == if readOnly then old(deleteConfirmationId) else Some(id)
    {
      if readOnly { return; }
      deleteConfirmationId := Some(id);
    }

    /** `executeDelete`: when a non-empty id awaits confirmation and the
        screen is editable, drop its listings from the screen, close the
        details view if it shows that id, close the confirmation, and delete
        through the service. Otherwise nothing changes. */
    method ExecuteDelete(save: Save, reply: Reply)
      modifies this`properties, this`selectedProperty, this`deleteConfirmationId, store
      ensures old(deleteConfirmationId) in {None, Some("")} || readOnly ==>
        && unchanged(this) && unchanged(store)
      ensures old(deleteConfirmationId) !in {None, Some("")} && !readOnly ==>
        var id := old(deleteConfirmationId).value;
        && properties == Removed(old(properties), id)
        && (selectedProperty == if old(selectedProperty).Some? && old(selectedProperty).value.id == id
                                then None else old(selectedProperty))
        && deleteConfirmationId == None
        && store.cache == Removed(old(store.cache), id)
        && store.slot == AfterSave(old(store.slot), store.cache, save)
        && store.effects == old(store.effects) + [Persist(store.cache), Send(DeleteProperty(id))]
    {
      if deleteConfirmationId.None? || deleteConfirmationId.value == "" || readOnly { return; }
      var id := deleteConfirmationId.value;
      properties := Removed(properties, id);
      if selectedProperty.Some? && selectedProperty.value.id == id {
        selectedProperty := None;
      }
      deleteConfirmationId := None;
      var _ := store.Delete(id, save, reply);
    }

    /** `openAddForm`: open an empty form, unless the screen is read-only. */
    method OpenAddForm()
      modifies this`editingProperty, this`showForm
      ensures readOnly ==> editingProperty == old(editingProperty) && showForm == old(showForm)
      ensures !readOnly ==> editingProperty == None && showForm
    {
      if readOnly { return; }
      editingProperty := None;
      showForm := true;
    }

    /** `openEditForm`: open the form on `p` and close the details view,
        unless the screen is read-only. */
    method OpenEditForm(p: Property)
      modifies this`editingProperty, this`selectedProperty, this`showForm
      ensures readOnly ==>
        && editingProperty == old(editingProperty) && selectedProperty == old(selectedProperty)
        && showForm == old(showForm)
      ensures !readOnly ==> editingProperty == Some(p) && selectedProperty == None && showForm
    {
      if readOnly { return; }
      editingProperty := Some(p);
      selectedProperty := None;
      showForm := true;
    }

    /** `handleCreateOrUpdate`: an update when a listing is being edited and
        a create otherwise, then a reload from the service; the form closes
        and a details view of the same id shows the saved listing. */
    method HandleCreateOrUpdate(data: Property, save: Save, reply: Reply, fetchReply: Reply, fetchSave: Save)
      modifies this`isSaving, this`properties, this`loading, this`showForm,
               this`editingProperty, this`selectedProperty, store
      ensures var written := if old(editingProperty).Some? then Replaced(old(store.cache), data)
                             else old(store.cache) + [data];
        store.cache == Fetched(fetchReply).GetOr(written)
      ensures var written := if old(editingProperty).Some? then Replaced(old(store.cache), data)
                             else old(store.cache) + [data];
        store.slot == if Fetched(fetchReply).Some?
                      then AfterSave(AfterSave(old(store.slot), written, save), store.cache, fetchSave)
                      else AfterSave(old(store.slot), written, save)
      ensures var written := if old(editingProperty).Some? then Replaced(old(store.cache), data)
                             else old(store.cache) + [data];
        var request := if old(editingProperty).Some? then UpdateProperty(data) else AddProperty(data);
        var reload := if Fetched(fetchReply).Some? then [Send(GetAll), Persist(store.cache)] else [Send(GetAll)];
        store.effects == old(store.effects) + [Persist(written), Send(request)] + reload
      ensures properties == store.cache
      ensures !showForm && editingProperty == None && !isSaving && !loading
      ensures selectedProperty == if old(selectedProperty).Some? && old(selectedProperty).value.id == data.id
                                  then Some(data) else old(selectedProperty)
    {
      isSaving := true;
      var success := false;
      if editingProperty.Some? {
        success := store.Update(data, save, reply);
      } else {
        success := store.Create(data, save, reply);
      }
      if success {
        LoadProperties(fetchReply, fetchSave);
        showForm := false;
        editingProperty := None;
        if selectedProperty.Some? && selectedProperty.value.id == data.id {
          selectedProperty := Some(data);
        }
      }
      isSaving := false;
    }
  }
}
