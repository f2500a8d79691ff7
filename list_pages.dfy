/** What the two administration list pages share: the selection and search
    state the table and the search box set, and the order-keeping filter
    their `useMemo` applies. */
module ListState {
  import opened Wrappers

  /** A `useState` slot for the selected row: unset, `null`, or a row. */
  datatype Selection<T> = Undefined | Null | Row(row: T)

  /** `onSearch(value)`: an empty search is no search. */
  function SearchValueOf(value: Option<string>): (r: Option<string>)
    ensures r.Some? <==> value.Some? && value.value != ""
    ensures r.Some? ==> r.value == value.value
  {
    if value.Some? && value.value != "" then value else None
  }

  /** `onChange(keys, rows)`: the first selected row, or unset when none
      (`rows && rows.length > 0 && rows[0]) || undefined`). */
  function FirstSelected<T>(rows: Option<seq<T>>): (s: Selection<T>)
    ensures !s.Null?
    ensures s.Row? <==> rows.Some? && |rows.value| > 0
    ensures s.Row? ==> s.row == rows.value[0]
  {
    if rows.Some? && |rows.value| > 0 then Row(rows.value[0]) else Undefined
  }

  /** `xs.filter(keep)`. */
  function Filter<T(!new)>(xs: seq<T>, keep: T -> bool): (r: seq<T>)
    ensures |r| <= |xs|
    ensures forall x :: x in r <==> x in xs && keep(x)
  {
    if xs == [] then [] else (if keep(xs[0]) then [xs[0]] else []) + Filter(xs[1..], keep)
  }

  /** Filtering keeps the order of the kept elements. */
  lemma {:induction false} FilterAppend<T(!new)>(a: seq<T>, b: seq<T>, keep: T -> bool)
    ensures Filter(a + b, keep) == Filter(a, keep) + Filter(b, keep)
  {
    if a == [] {
      assert a + b == b;
    } else {
      assert (a + b)[0] == a[0] && (a + b)[1..] == a[1..] + b;
      FilterAppend(a[1..], b, keep);
    }
  }

  /** `searchValue ? (data || []).filter(keep) : data`: with a search the
      matching rows (none before the data arrives), without one the data as is. */
  function Shown<T(!new)>(searchValue: Option<string>, data: Option<seq<T>>, keep: T -> bool): (r: Option<seq<T>>)
    ensures searchValue.None? ==> r == data
    ensures searchValue.Some? ==> r == Some(Filter(data.GetOr([]), keep))
  {
    if searchValue.Some? then Some(Filter(data.GetOr([]), keep)) else data
  }
}

/** The user list page (front/src/pages/UserList/UserList.tsx). */
module UserListPage {
  import opened Wrappers
  import opened Text
  import opened ListState

  /** `UserForList`. */
  datatype UserForList = UserForList(
    id: int, username: string, lastname: string, middlename: string,
    firstname: string, flat: int, role: int, isBlocking: bool)

  /** The text a search runs over: login, first, last and middle name, one space apart. */
  function SearchText(u: UserForList): string {
    u.username + " " + u.firstname + " " + u.lastname + " " + u.middlename
  }

  /** `searchUserCompare(searchValue)(usr)`: the search occurs in the names,
      or is exactly the flat number. */
  predicate SearchUserCompare(searchValue: string, u: UserForList)
    ensures searchValue == [] ==> SearchUserCompare(searchValue, u)
  {
    Contains(SearchText(u), searchValue) || searchValue == IntToString(u.flat)
  }

  /** Each field alone, and a first name followed by a last name, is found,
      as is the flat number. */
  lemma SearchFindsFields(u: UserForList)
    ensures SearchUserCompare(u.username, u)
    ensures SearchUserCompare(u.firstname, u)
    ensures SearchUserCompare(u.firstname + " " + u.lastname, u)
    ensures SearchUserCompare(u.middlename, u)
    ensures SearchUserCompare(IntToString(u.flat), u)
  {
    var t := SearchText(u);
    var a := |u.username| + 1;
    assert OccursAt(t, u.username, 0);
    assert t[a..a + |u.firstname|] == u.firstname;
    assert OccursAt(t, u.firstname, a);
    assert t[a..a + |u.firstname + " " + u.lastname|] == u.firstname + " " + u.lastname;
    assert OccursAt(t, u.firstname + " " + u.lastname, a);
    assert OccursAt(t, u.middlename, |t| - |u.middlename|);
  }

  /** The state of the page. */
  class UserListView {
    var selectedRow: Selection<UserForList>
    var searchValue: Option<string>

    /** No row ever holds `null`, and a search is never empty. */
    predicate Valid()
      reads this
    {
      !selectedRow.Null? && (searchValue.Some? ==> searchValue.value != "")
    }

    constructor ()
      ensures Valid() && selectedRow == Undefined && searchValue == None
    {
      selectedRow := Undefined;
      searchValue := None;
    }

    method OnSearch(value: Option<string>)
      requires Valid()
      modifies this`searchValue
      ensures Valid() && searchValue == SearchValueOf(value)
    {
      searchValue := SearchValueOf(value);
    }

    method OnChange(rows: Option<seq<UserForList>>)
      requires Valid()
      modifies this`selectedRow
      ensures Valid() && selectedRow == FirstSelected(rows)
    {
      selectedRow := FirstSelected(rows);
    }

    /** After a deletion the list reloads and the search is cleared. */
    method OnReload()
      requires Valid()
      modifies this`searchValue
      ensures Valid() && searchValue == None
    {
      searchValue := None;
    }

    /** Edit and delete are disabled exactly when no row is selected. */
    function IsDisabled(): (b: bool)
      reads this
      requires Valid()
      ensures b <==> !selectedRow.Row?
    {
      selectedRow == Undefined
    }

    /** The users shown. */
    function Users(data: Option<seq<UserForList>>): (r: Option<seq<UserForList>>)
      reads this
      ensures searchValue.None? ==> r == data
      ensures searchValue.Some? ==> r.Some? && forall u :: u in r.value <==> data.Some? && u in data.value && SearchUserCompare(searchValue.value, u)
    {
      var search := searchValue.GetOr("");
      Shown(searchValue, data, (u: UserForList) => SearchUserCompare(search, u))
    }
  }
}

/** The message list page (front/src/pages/MessageList/MessageList.tsx). */
module MessageListPage {
  import opened Wrappers
  import opened Text
  import opened ListState

  /** `MessageElem`. */
  datatype MessageElem = MessageElem(id: int, message: string, messageType: int, isVisible: bool)

  /** `message.includes(searchValue)`: an empty search matches every
      message, and no search longer than the message matches it. */
  predicate MessageMatches(searchValue: string, m: MessageElem)
    ensures searchValue == [] ==> MessageMatches(searchValue, m)
    ensures MessageMatches(searchValue, m) ==> |searchValue| <= |m.message|
  {
    Contains(m.message, searchValue)
  }

  /** The state of the page. */
  class MessageListView {
    var selectedRow: Selection<MessageElem>
    var searchValue: Option<string>

    /** No row ever holds `null`, and a search is never empty. */
    predicate Valid()
      reads this
    {
      !selectedRow.Null? && (searchValue.Some? ==> searchValue.value != "")
    }

    constructor ()
      ensures Valid() && selectedRow == Undefined && searchValue == None
    {
      selectedRow := Undefined;
      searchValue := None;
    }

    method OnSearch(value: Option<string>)
      requires Valid()
      modifies this`searchValue
      ensures Valid() && searchValue == SearchValueOf(value)
    {
      searchValue := SearchValueOf(value);
    }

    method OnChange(rows: Option<seq<MessageElem>>)
      requires Valid()
      modifies this`selectedRow
      ensures Valid() && selectedRow == FirstSelected(rows)
    {
      selectedRow := FirstSelected(rows);
    }

    /** After a deletion the list reloads, and selection and search are cleared. */
    method OnReload()
      requires Valid()
      modifies this`selectedRow, this`searchValue
      ensures Valid() && selectedRow == Undefined && searchValue == None
    {
      selectedRow := Undefined;
      searchValue := None;
    }

    /** The disabled flag as written: `selectedRow === null`. */
    function IsDisabled(): (b: bool)
      reads this
      ensures b ==> selectedRow.Null?
      ensures selectedRow.Undefined? ==> !b
    {
      selectedRow == Null
    }

    /** The flag as evidently intended (and as the user list page has it). */
    function IsDisabledIntended(): (b: bool)
      reads this
      requires Valid()
      ensures b <==> !selectedRow.Row?
    {
      selectedRow == Undefined
    }

    /** The messages shown: those containing the search, in order. */
    function Messages(data: Option<seq<MessageElem>>): (r: Option<seq<MessageElem>>)
      reads this
      ensures searchValue.None? ==> r == data
      ensures searchValue.Some? ==> r.Some? && forall m :: m in r.value <==> data.Some? && m in data.value && MessageMatches(searchValue.value, m)
    {
      var search := searchValue.GetOr("");
      Shown(searchValue, data, (m: MessageElem) => MessageMatches(search, m))
    }
  }

  /** As written, edit and delete are never disabled: `null` is never stored. */
  lemma NeverDisabled(v: MessageListView)
    requires v.Valid()
    ensures !v.IsDisabled()
  {
  }

  /** On the page as it opens, nothing is selected and yet the buttons are
      enabled; the corrected flag disables them. */
  lemma NothingSelectedYetEnabled(v: MessageListView)
    requires v.Valid() && v.selectedRow == Undefined
    ensures !v.IsDisabled() && v.IsDisabledIntended()
  {
  }
}
