/**
 * The read side of the contacts store: plain projections of the root state and the
 * memoised filtered-contacts selector, whose combiner is modelled by FilterContacts.
 */
module ContactSelectors {
  import opened Wrappers
  import opened JsValues

  /** A contact as the server returns it; name and number may be missing. */
  datatype Contact = Contact(id: string, name: Option<string>, number: Option<string>)

  datatype ContactsSlice = ContactsSlice(items: Option<seq<Contact>>, isLoading: bool, error: Value)
  datatype FiltersSlice = FiltersSlice(globalFilter: Option<string>)
  datatype RootState = RootState(contacts: ContactsSlice, filters: FiltersSlice)

  function SelectContacts(state: RootState): (items: Option<seq<Contact>>)
  {
    state.contacts.items
  }

  function SelectIsLoading(state: RootState): (isLoading: bool)
  {
    state.contacts.isLoading
  }

  function SelectError(state: RootState): (error: Value)
  {
    state.contacts.error
  }

  function SelectFilter(state: RootState): (filter: Option<string>)
  {
    state.filters.globalFilter
  }

  /** `xs` is `ys` with some elements removed and the rest kept in order. */
  predicate IsSubsequence<T(==)>(xs: seq<T>, ys: seq<T>)
    decreases |ys|
  {
    xs == [] ||
    (ys != [] &&
     ((xs[0] == ys[0] && IsSubsequence(xs[1..], ys[1..])) || IsSubsequence(xs, ys[1..])))
  }

  lemma {:induction false} IsSubsequenceReflexive<T>(xs: seq<T>)
    ensures IsSubsequence(xs, xs)
    decreases |xs|
  {
    if xs != [] {
      IsSubsequenceReflexive(xs[1..]);
    }
  }

  /**
   * The predicate handed to `Array.filter`: the lower-cased name, when there is one, contains
   * the lower-cased filter, or the raw number, when there is one, contains it.
   */
  predicate Matches(c: Contact, normalizedFilter: string): (m: bool)
    ensures m ==> c.name.Some? || c.number.Some?
    ensures normalizedFilter == "" ==> (m <==> c.name.Some? || c.number.Some?)
  {
    (c.name.Some? && Includes(ToLowerCase(c.name.value), normalizedFilter)) ||
    (c.number.Some? && Includes(c.number.value, normalizedFilter))
  }

  /** `contacts.filter(...)` over the matching predicate, scanning from the front. */
  function KeepMatching(contacts: seq<Contact>, normalizedFilter: string): (kept: seq<Contact>)
    ensures |kept| <= |contacts|
  {
    if contacts == [] then []
    else (if Matches(contacts[0], normalizedFilter) then [contacts[0]] else []) + KeepMatching(contacts[1..], normalizedFilter)
  }

  /** The filter keeps contacts in their input order. */
  lemma {:induction false} KeepMatchingIsSubsequence(contacts: seq<Contact>, normalizedFilter: string)
    ensures IsSubsequence(KeepMatching(contacts, normalizedFilter), contacts)
  {
    if contacts != [] {
      KeepMatchingIsSubsequence(contacts[1..], normalizedFilter);
      var rest := KeepMatching(contacts[1..], normalizedFilter);
      if Matches(contacts[0], normalizedFilter) {
        assert KeepMatching(contacts, normalizedFilter) == [contacts[0]] + rest;
        assert ([contacts[0]] + rest)[1..] == rest;
      } else {
        assert KeepMatching(contacts, normalizedFilter) == rest;
      }
    }
  }

  /** A matching contact is kept as often as it occurs; any other contact is dropped. */
  lemma {:induction false} KeepMatchingCount(contacts: seq<Contact>, normalizedFilter: string, c: Contact)
    ensures multiset(KeepMatching(contacts, normalizedFilter))[c] ==
            if Matches(c, normalizedFilter) then multiset(contacts)[c] else 0
  {
    if contacts != [] {
      KeepMatchingCount(contacts[1..], normalizedFilter, c);
      assert contacts == [contacts[0]] + contacts[1..];
    }
  }

  /** Soundness and completeness: a contact is kept exactly when it is in the input and matches. */
  lemma {:induction false} KeepMatchingMembership(contacts: seq<Contact>, normalizedFilter: string)
    ensures forall c :: c in KeepMatching(contacts, normalizedFilter) <==> c in contacts && Matches(c, normalizedFilter)
  {
    forall c
      ensures c in KeepMatching(contacts, normalizedFilter) <==> c in contacts && Matches(c, normalizedFilter)
    {
      KeepMatchingCount(contacts, normalizedFilter, c);
    }
  }

  /**
   * The combiner of the filtered-contacts selector. An empty or absent filter, or an absent
   * list, gives the list back as it is; otherwise the filter is lower-cased and the matching
   * contacts are kept in order.
   */
  function FilterContacts(contacts: Option<seq<Contact>>, filter: Option<string>): (r: Option<seq<Contact>>)
    ensures filter.None? || filter == Some("") || contacts.None? ==> r == contacts
    ensures r.Some? <==> contacts.Some?
    ensures r.Some? ==> IsSubsequence(r.value, contacts.value)
    ensures contacts.Some? && filter.Some? && filter.value != "" ==>
      forall c :: c in r.value <==> c in contacts.value && Matches(c, ToLowerCase(filter.value))
  {
    if filter.None? || filter.value == "" || contacts.None? then
      if contacts.Some? then IsSubsequenceReflexive(contacts.value); contacts else contacts
    else
      var normalizedFilter := ToLowerCase(filter.value);
      KeepMatchingIsSubsequence(contacts.value, normalizedFilter);
      KeepMatchingMembership(contacts.value, normalizedFilter);
      Some(KeepMatching(contacts.value, normalizedFilter))
  }

  /** The filtered-contacts selector applied to the root state. */
  function SelectFilteredContacts(state: RootState): (r: Option<seq<Contact>>)
    ensures r.Some? <==> SelectContacts(state).Some?
    ensures r.Some? ==> IsSubsequence(r.value, SelectContacts(state).value)
    ensures SelectFilter(state).None? || SelectFilter(state) == Some("") ==> r == SelectContacts(state)
  {
    FilterContacts(SelectContacts(state), SelectFilter(state))
  }

  /** A list whose every contact matches passes through the filter unchanged. */
  lemma {:induction false} KeepMatchingKeepsAllMatching(contacts: seq<Contact>, normalizedFilter: string)
    requires forall i :: 0 <= i < |contacts| ==> Matches(contacts[i], normalizedFilter)
    ensures KeepMatching(contacts, normalizedFilter) == contacts
  {
    if contacts != [] {
      KeepMatchingKeepsAllMatching(contacts[1..], normalizedFilter);
      assert contacts == [contacts[0]] + contacts[1..];
    }
  }

  lemma KeepMatchingIdempotent(contacts: seq<Contact>, normalizedFilter: string)
    ensures var once := KeepMatching(contacts, normalizedFilter);
            KeepMatching(once, normalizedFilter) == once
  {
    var once := KeepMatching(contacts, normalizedFilter);
    KeepMatchingMembership(contacts, normalizedFilter);
    assert forall i :: 0 <= i < |once| ==> once[i] in once;
    KeepMatchingKeepsAllMatching(once, normalizedFilter);
  }

  /**
   * With a non-empty filter, each contact of the list occurs in the result as often as in the
   * list when it matches the lower-cased filter, and not at all otherwise.
   */
  lemma FilterContactsCount(contacts: seq<Contact>, filter: string, c: Contact)
    requires filter != ""
    ensures multiset(FilterContacts(Some(contacts), Some(filter)).value)[c] ==
            if Matches(c, ToLowerCase(filter)) then multiset(contacts)[c] else 0
  {
    KeepMatchingCount(contacts, ToLowerCase(filter), c);
  }

  /** The filtered view reads only the list and the filter, not the loading flag or the error. */
  lemma FilteredViewIgnoresLoadingAndError(state: RootState, isLoading: bool, error: Value)
    ensures SelectFilteredContacts(state.(contacts := state.contacts.(isLoading := isLoading, error := error)))
            == SelectFilteredContacts(state)
  {
  }

  /** Filtering the filtered list again with the same filter changes nothing. */
  lemma FilterContactsIdempotent(contacts: Option<seq<Contact>>, filter: Option<string>)
    ensures FilterContacts(FilterContacts(contacts, filter), filter) == FilterContacts(contacts, filter)
  {
    if contacts.Some? && filter.Some? && filter.value != "" {
      KeepMatchingIdempotent(contacts.value, ToLowerCase(filter.value));
    }
  }

  /** Filtering with `f` and with `f.toLowerCase()` gives the same list. */
  lemma FilterContactsCaseInsensitive(contacts: Option<seq<Contact>>, filter: string)
    ensures FilterContacts(contacts, Some(filter)) == FilterContacts(contacts, Some(ToLowerCase(filter)))
  {
    ToLowerCaseIdempotent(filter);
  }

  /** A contact without a name is kept exactly when its number contains the lower-cased filter. */
  lemma NamelessContactMatchesOnNumber(contacts: seq<Contact>, filter: string, c: Contact)
    requires filter != "" && c in contacts && c.name.None?
    ensures c in FilterContacts(Some(contacts), Some(filter)).value <==>
            c.number.Some? && Includes(c.number.value, ToLowerCase(filter))
  {
  }

  /** A contact with neither name nor number is never kept by a non-empty filter. */
  lemma BareContactNeverMatches(contacts: seq<Contact>, filter: string, c: Contact)
    requires filter != "" && c.name.None? && c.number.None?
    ensures c !in FilterContacts(Some(contacts), Some(filter)).value
  {
  }
}
