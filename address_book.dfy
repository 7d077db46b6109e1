/** The address book page (`src/components/pages/AddressBook.tsx`): search and
    filters over the stored addresses, the city and status choices, the
    statistic cards, the add / edit handlers and the CSV export. */
module AddressBook {
  import opened Seqs
  import opened Text
  import opened Types
  import opened AppStore
  import opened AddressForm
  import Csv

  /** `text?.toLowerCase().includes(term.toLowerCase())` on an optional text. */
  predicate ContainsIgnoringCase(text: Option<string>, term: string)
  {
    text.Some? && IncludesIgnoringCase(text.value, term)
  }

  /** `matchesSearch`: name, e-mail or city ignoring case, or the phone number
      exactly as typed. */
  predicate MatchesSearch(a: Address, term: string)
  {
    ContainsIgnoringCase(Some(a.name), term) || Contains(a.phoneNumber, term) ||
    ContainsIgnoringCase(a.email, term) || ContainsIgnoringCase(a.city, term)
  }

  /** `"all"` or exact equality with a value the address may lack. */
  predicate MatchesChoice(value: Option<string>, choice: string)
  {
    choice == "all" || value == Some(choice)
  }

  predicate MatchesBusiness(a: Address, choice: string)
  {
    choice == "all" || (choice == "business" && a.isBusiness) || (choice == "individual" && !a.isBusiness)
  }

  /** All active filters hold together. */
  predicate Matches(a: Address, term: string, status: string, city: string, business: string)
  {
    MatchesSearch(a, term) && MatchesChoice(a.status, status) &&
    MatchesChoice(a.city, city) && MatchesBusiness(a, business)
  }

  /** `filteredAddresses`. */
  function FilteredAddresses(addresses: seq<Address>, term: string, status: string, city: string,
                             business: string): (r: seq<Address>)
    ensures forall a :: a in r <==> a in addresses && Matches(a, term, status, city, business)
    ensures IsSubsequence(r, addresses)
  {
    Filter(addresses, (a: Address) => Matches(a, term, status, city, business))
  }

  /** With no search text and every filter on "all", every address is listed. */
  lemma UnfilteredListsAll(addresses: seq<Address>)
    ensures FilteredAddresses(addresses, "", "all", "all", "all") == addresses
  {
    forall a | a in addresses
      ensures Matches(a, "", "all", "all", "all")
    {
      IncludesIgnoringCaseLaws(a.name, "");
    }
    FilterAll(addresses, (a: Address) => Matches(a, "", "all", "all", "all"));
  }

  /** The search ignores the case of the term for names, but not for phone
      numbers: "AB" finds the name "ab" but not the phone number "ab". */
  lemma SearchCaseSensitivity(a: Address)
    requires a.name == "ab" && a.phoneNumber == "ab"
    ensures ContainsIgnoringCase(Some(a.name), "AB")
    ensures !Contains(a.phoneNumber, "AB")
  {
    assert ToLower("AB") == "ab";
    assert ToLower("ab") == "ab";
    assert StartsWith("ab", "ab");
    assert !StartsWith("ab", "AB");
    assert !StartsWith("b", "AB");
    assert !StartsWith("", "AB");
    assert "ab"[1..] == "b";
    assert "b"[1..] == "";
  }

  /** `addr.city` or `addr.status` when truthy. */
  function PresentText(v: Option<string>): bool
  {
    v.Some? && v.value != ""
  }

  function CityOf(a: Address): Option<string> { a.city }
  function StatusOf(a: Address): Option<string> { a.status }

  /** `Array.from(new Set(values.filter(Boolean)))`. */
  function UniqueValues(values: seq<Option<string>>): (r: seq<Option<string>>)
    ensures forall v :: v in r <==> v in values && PresentText(v)
    ensures forall i, j :: 0 <= i < j < |r| ==> r[i] != r[j]
  {
    Distinct(Filter(values, PresentText))
  }

  /** The choices come in the order in which the values first occur. */
  lemma UniqueValuesOrder(values: seq<Option<string>>)
    ensures var present := Filter(values, PresentText);
      var r := UniqueValues(values);
      forall i, j :: 0 <= i < j < |r| ==> IndexOf(present, r[i]) < IndexOf(present, r[j])
  {
    DistinctFirstOccurrence(Filter(values, PresentText));
  }

  /** `uniqueCities`. */
  function UniqueCities(addresses: seq<Address>): seq<Option<string>>
  {
    UniqueValues(Map(addresses, CityOf))
  }

  /** `uniqueStatuses`. */
  function UniqueStatuses(addresses: seq<Address>): seq<Option<string>>
  {
    UniqueValues(Map(addresses, StatusOf))
  }

  /** Every city offered is the non-empty city of some address, and every such
      city is offered once. */
  lemma UniqueCitiesSpec(addresses: seq<Address>)
    ensures forall c :: c in UniqueCities(addresses) <==>
      (exists i :: 0 <= i < |addresses| && addresses[i].city == c) && PresentText(c)
    ensures forall i, j :: 0 <= i < j < |UniqueCities(addresses)| ==>
      UniqueCities(addresses)[i] != UniqueCities(addresses)[j]
  {
    var m := Map(addresses, CityOf);
    forall c ensures c in m <==> exists i :: 0 <= i < |addresses| && addresses[i].city == c {
      if c in m {
        var k :| 0 <= k < |m| && m[k] == c;
        assert addresses[k].city == c;
      }
    }
  }

  function IsBusinessEntry(a: Address): bool { a.isBusiness }
  function IsIndividualEntry(a: Address): bool { !a.isBusiness }
  function WasMessaged(a: Address): bool { a.hasReceivedMessage }

  /** The "business contacts" card. */
  function BusinessCount(addresses: seq<Address>): (r: nat)
    ensures r <= |addresses|
  {
    |Filter(addresses, IsBusinessEntry)|
  }

  /** The "already contacted" card. */
  function MessagedCount(addresses: seq<Address>): (r: nat)
    ensures r <= |addresses|
  {
    |Filter(addresses, WasMessaged)|
  }

  /** The business card counts exactly what the "business" filter lists, and
      together with the "individual" filter accounts for every address. */
  lemma BusinessCountMatchesFilter(addresses: seq<Address>)
    ensures BusinessCount(addresses) == |FilteredAddresses(addresses, "", "all", "all", "business")|
    ensures BusinessCount(addresses) + |FilteredAddresses(addresses, "", "all", "all", "individual")| == |addresses|
  {
    forall a | a in addresses
      ensures ContainsIgnoringCase(Some(a.name), "")
    {
      IncludesIgnoringCaseLaws(a.name, "");
    }
    FilterCongruent(addresses, IsBusinessEntry, (a: Address) => Matches(a, "", "all", "all", "business"));
    FilterCongruent(addresses, IsIndividualEntry, (a: Address) => Matches(a, "", "all", "all", "individual"));
    FilterPartitionCount(addresses, IsBusinessEntry, IsIndividualEntry);
  }

  /** A rating counts when it is truthy: present and not zero. */
  function HasRating(a: Address): bool
  {
    a.rating.Some? && a.rating.value != 0.0
  }

  function RatingOf(a: Address): real
  {
    if a.rating.Some? then a.rating.value else 0.0
  }

  /** The "average rating" card: `None` is the card's "0" for no rated entry. */
  function AverageRating(addresses: seq<Address>): (r: Option<real>)
    ensures r.None? <==> forall i :: 0 <= i < |addresses| ==> !HasRating(addresses[i])
  {
    var rated := Filter(addresses, HasRating);
    if |rated| > 0 then
      assert rated[0] in rated;
      Some(SumReal(rated, RatingOf) / |rated| as real)
    else
      assert forall i :: 0 <= i < |addresses| ==> addresses[i] !in rated;
      None
  }

  /** With ratings within the form's range, the average is too. */
  lemma AverageRatingBounds(addresses: seq<Address>)
    requires forall i :: 0 <= i < |addresses| && addresses[i].rating.Some? ==>
      0.0 <= addresses[i].rating.value <= 5.0
    ensures AverageRating(addresses).Some? ==> 0.0 <= AverageRating(addresses).value <= 5.0
  {
    var rated := Filter(addresses, HasRating);
    if |rated| > 0 {
      SumRealBounds(rated, RatingOf, 0.0, 5.0);
      MeanBounds(SumReal(rated, RatingOf), |rated| as real, 0.0, 5.0);
    }
  }

  /** An entry without a truthy rating leaves the average as it was. */
  lemma UnratedEntryKeepsAverage(addresses: seq<Address>, a: Address)
    requires !HasRating(a)
    ensures AverageRating(addresses + [a]) == AverageRating(addresses)
  {
    FilterAppend(addresses, [a], HasRating);
    assert Filter([a], HasRating) == [];
    assert Filter(addresses, HasRating) + [] == Filter(addresses, HasRating);
  }

  const ExportHeader: seq<string> := ["Nama", "Nomor HP", "Email", "Alamat", "Kota", "Status", "Rating"]

  /** One exported line's fields; a missing optional value is written as "",
      and `render` is the number-to-text conversion of the rating. */
  function ExportFields(a: Address, render: real -> string): (r: seq<string>)
    ensures |r| == |ExportHeader|
  {
    [a.name, a.phoneNumber, TextOr(a.email, ""), a.address, TextOr(a.city, ""),
     TextOr(a.status, ""), if HasRating(a) then render(a.rating.value) else ""]
  }

  /** The exported lines: the header, then one line per listed address. */
  function ExportLinesOf(filtered: seq<Address>, render: real -> string): (r: seq<string>)
    ensures |r| == |filtered| + 1
  {
    [Csv.Row(ExportHeader)] + Map(filtered, (a: Address) => Csv.Row(ExportFields(a, render)))
  }

  /** The exported document. */
  function ExportCsv(filtered: seq<Address>, render: real -> string): string
  {
    Csv.Document(ExportLinesOf(filtered, render))
  }

  /** Fields free of line breaks and commas. */
  predicate PlainFields(fields: seq<string>)
  {
    forall i :: 0 <= i < |fields| ==> '\n' !in fields[i] && ',' !in fields[i]
  }

  /** A line of plain fields is a single line that splits back into them. */
  lemma PlainRow(fields: seq<string>)
    requires |fields| >= 1 && PlainFields(fields)
    ensures '\n' !in Csv.Row(fields) && Split(Csv.Row(fields), ',') == fields
  {
    Csv.RowIsOneLine(fields);
    Csv.RowFields(fields);
  }

  /** The header is a line of the seven column names. */
  lemma HeaderRow()
    ensures '\n' !in Csv.Row(ExportHeader) && Split(Csv.Row(ExportHeader), ',') == ExportHeader
  {
    assert PlainFields(ExportHeader);
    PlainRow(ExportHeader);
  }

  /** The exported document splits at line breaks into its lines when no
      value holds a line break. */
  lemma ExportLines(filtered: seq<Address>, render: real -> string)
    requires forall a :: a in filtered ==> PlainFields(ExportFields(a, render))
    ensures Split(ExportCsv(filtered, render), '\n') == ExportLinesOf(filtered, render)
  {
    var lines := ExportLinesOf(filtered, render);
    forall i | 0 <= i < |lines|
      ensures '\n' !in lines[i]
    {
      if i == 0 {
        HeaderRow();
      } else {
        var a := filtered[i - 1];
        assert lines[i] == Csv.Row(ExportFields(a, render));
        PlainRow(ExportFields(a, render));
      }
    }
    Csv.DocumentLines(lines);
  }

  /** The export is the header line plus one line per listed address, each
      holding the address's seven fields, when no value holds a line break or
      a comma. */
  lemma ExportShape(filtered: seq<Address>, render: real -> string)
    requires forall a :: a in filtered ==> PlainFields(ExportFields(a, render))
    ensures var lines := Split(ExportCsv(filtered, render), '\n');
      |lines| == |filtered| + 1 &&
      Split(lines[0], ',') == ExportHeader &&
      forall i :: 0 <= i < |filtered| ==> Split(lines[i + 1], ',') == ExportFields(filtered[i], render)
  {
    ExportLines(filtered, render);
    var lines := ExportLinesOf(filtered, render);
    HeaderRow();
    forall i | 0 <= i < |filtered|
      ensures Split(lines[i + 1], ',') == ExportFields(filtered[i], render)
    {
      assert filtered[i] in filtered;
      PlainRow(ExportFields(filtered[i], render));
    }
  }

  /** The entry `handleAddAddress` stores: the submitted values with a new id
      (the clock in milliseconds) and both timestamps set to now. */
  function NewAddress(d: FormData, nowMillis: nat, now: string): Address
  {
    Address(NatToString(nowMillis), d.name, d.address, d.phoneNumber, d.rating, d.reviews,
            d.website, d.email, d.latitude, d.longitude, d.postalCode, d.city, d.state,
            d.country, None, None, None, d.status, d.isBusiness, d.businessName,
            d.businessCategory, d.hasReceivedMessage, Some(now), Some(now))
  }

  /** The "already contacted" card counts the contacted addresses and, with
      the not-yet-contacted ones, every address; adding an entry raises it
      exactly when the form marked the entry as messaged. */
  lemma MessagedCountLaws(addresses: seq<Address>, d: FormData, nowMillis: nat, now: string)
    ensures MessagedCount(addresses) + |Filter(addresses, (a: Address) => !a.hasReceivedMessage)| == |addresses|
    ensures MessagedCount(addresses + [NewAddress(d, nowMillis, now)]) ==
      MessagedCount(addresses) + (if d.hasReceivedMessage then 1 else 0)
  {
    FilterPartitionCount(addresses, WasMessaged, (a: Address) => !a.hasReceivedMessage);
    FilterLast(addresses + [NewAddress(d, nowMillis, now)], WasMessaged);
    assert (addresses + [NewAddress(d, nowMillis, now)])[..|addresses|] == addresses;
  }

  /** The patch `handleUpdateAddress` merges: the submitted values and a fresh `updatedAt`. */
  function EditPatch(d: FormData, now: string): AddressPatch
  {
    AddressPatch(
      None, Some(d.name), Some(d.address), Some(d.phoneNumber), Some(d.rating), Some(d.reviews),
      Some(d.website), Some(d.email), Some(d.latitude), Some(d.longitude), Some(d.postalCode),
      Some(d.city), Some(d.state), Some(d.country), None, None, None, Some(d.status),
      Some(d.isBusiness), Some(d.businessName), Some(d.businessCategory),
      Some(d.hasReceivedMessage), None, Some(Some(now)))
  }

  /** An edit stamps `updatedAt` on the edited entry and keeps its id and
      `createdAt`; every other entry is untouched. */
  lemma EditStampsOnlyThatEntry(addresses: seq<Address>, id: string, d: FormData, now: string)
    ensures var r := UpdatedById(addresses, AddressKey, id, (a: Address) => MergeAddress(a, EditPatch(d, now)));
      |r| == |addresses| &&
      (forall i :: 0 <= i < |addresses| && addresses[i].id == id ==>
        r[i].id == id && r[i].updatedAt == Some(now) && r[i].createdAt == addresses[i].createdAt &&
        r[i].name == d.name) &&
      (forall i :: 0 <= i < |addresses| && addresses[i].id != id ==> r[i] == addresses[i])
  {
  }

  /** The page's own state next to the global store. */
  class AddressBookPage {
    const store: Store
    var isFormOpen: bool
    var editingAddress: Option<Address>

    constructor(store: Store)
      ensures this.store == store && !isFormOpen && editingAddress.None?
    {
      this.store := store;
      isFormOpen := false;
      editingAddress := None;
    }

    /** The initializer handed to `useState`, which runs once, on the first
        render: an empty store receives the sample addresses, one `addAddress`
        at a time; a non-empty one is kept. */
    method SeedIfEmpty(samples: seq<Address>)
      modifies store`addresses
      ensures old(store.addresses) == [] ==> store.addresses == samples
      ensures old(store.addresses) != [] ==> store.addresses == old(store.addresses)
    {
      if |store.addresses| != 0 {
        return;
      }
      for i := 0 to |samples|
        invariant store.addresses == samples[..i]
      {
        store.AddAddress(samples[i]);
        assert samples[..i + 1] == samples[..i] + [samples[i]];
      }
      assert samples[..|samples|] == samples;
    }

    /** `handleAddAddress`. */
    method HandleAddAddress(d: FormData, nowMillis: nat, now: string)
      modifies store`addresses, this`isFormOpen
      ensures store.addresses == old(store.addresses) + [NewAddress(d, nowMillis, now)]
      ensures !isFormOpen
    {
      store.AddAddress(NewAddress(d, nowMillis, now));
      isFormOpen := false;
    }

    /** `handleUpdateAddress`: nothing happens unless an entry is being edited. */
    method HandleUpdateAddress(d: FormData, now: string)
      modifies store`addresses, this`isFormOpen, this`editingAddress
      ensures old(editingAddress).None? ==>
        store.addresses == old(store.addresses) && isFormOpen == old(isFormOpen) && editingAddress.None?
      ensures old(editingAddress).Some? ==>
        store.addresses == UpdatedById(old(store.addresses), AddressKey, old(editingAddress).value.id,
                                       (a: Address) => MergeAddress(a, EditPatch(d, now))) &&
        !isFormOpen && editingAddress.None?
    {
      if editingAddress.None? {
        return;
      }
      store.UpdateAddress(editingAddress.value.id, EditPatch(d, now));
      isFormOpen := false;
      editingAddress := None;
    }
  }
}
