/** The comparison both list tables sort with
    (front/src/pages/UserList/UserList.types.ts and
    front/src/pages/MessageList/MessageList.types.ts, the same definition in
    each). Rows are the records as JavaScript objects. */
module TableSort {
  import opened Wrappers
  import opened Js

  /** The numeric value JavaScript's `-` takes of a field: numbers as they
      are, `true`/`false` as 1/0, `null` as 0; `None` is `NaN` (a missing
      field or any other value; the digit-string case is left out). */
  function ToNumber(v: Value): (n: Option<int>)
    ensures v.Num? ==> n == Some(v.n)
    ensures v.Bool? ==> n == Some(if v.b then 1 else 0)
  {
    match v
    case Num(x) => Some(x)
    case Bool(b) => Some(if b then 1 else 0)
    case Null => Some(0)
    case _ => None
  }

  /** `sorter(key)(a, b) = a[key] - b[key]`. */
  function Sorter(key: string, a: map<string, Value>, b: map<string, Value>): (r: Option<int>)
    ensures r.Some? <==> key in a && key in b && ToNumber(a[key]).Some? && ToNumber(b[key]).Some?
    ensures r.Some? ==> (r.value == 0 <==> ToNumber(a[key]) == ToNumber(b[key]))
    ensures r.Some? ==> (r.value < 0 <==> ToNumber(a[key]).value < ToNumber(b[key]).value)
  {
    var x := if key in a then ToNumber(a[key]) else None;
    var y := if key in b then ToNumber(b[key]) else None;
    if x.Some? && y.Some? then Some(x.value - y.value) else None
  }

  /** Swapping the rows negates the comparison, and NaN stays NaN. */
  lemma SorterAntisymmetric(key: string, a: map<string, Value>, b: map<string, Value>)
    ensures Sorter(key, a, b).Some? <==> Sorter(key, b, a).Some?
    ensures Sorter(key, a, b).Some? ==> Sorter(key, b, a) == Some(-Sorter(key, a, b).value)
  {
  }

  /** On numeric fields the comparison is zero exactly for equal values, and
      its sign orders the rows consistently (transitively). */
  lemma SorterOnNumbers(key: string, a: map<string, Value>, b: map<string, Value>, c: map<string, Value>)
    requires key in a && key in b && key in c && a[key].Num? && b[key].Num? && c[key].Num?
    ensures Sorter(key, a, b) == Some(a[key].n - b[key].n)
    ensures Sorter(key, a, b) == Some(0) <==> a[key] == b[key]
    ensures Sorter(key, a, b).value <= 0 && Sorter(key, b, c).value <= 0 ==> Sorter(key, a, c).value <= 0
  {
  }

  /** On flags, `false` sorts before `true`. */
  lemma SorterOnFlags(key: string, a: map<string, Value>, b: map<string, Value>)
    requires key in a && key in b && a[key] == Bool(false) && b[key] == Bool(true)
    ensures Sorter(key, a, b) == Some(-1)
  {
  }

  /** A column of a table: its title, the field it shows, its React key. */
  datatype Column = Column(title: string, dataIndex: string, key: string)

  /** Every column is keyed by the field it shows, and no two share a key. */
  predicate WellKeyed(cols: seq<Column>) {
    && (forall i :: 0 <= i < |cols| ==> cols[i].key == cols[i].dataIndex)
    && (forall i, j :: 0 <= i < j < |cols| ==> cols[i].key != cols[j].key)
  }
}

/** The columns of the user table (front/src/pages/UserList/UserList.types.ts). */
module UserColumns {
  import opened Wrappers
  import opened Js
  import opened Auth
  import opened TableSort
  import UserListPage

  const Columns: seq<Column> := [
    Column("ID", "id", "id"),
    Column("Логин", "username", "username"),
    Column("Фамилия", "lastname", "lastname"),
    Column("Имя", "firstname", "firstname"),
    Column("Отчество", "middlename", "middlename"),
    Column("Роль", "role", "role"),
    Column("№ квартиры", "flat", "flat"),
    Column("Заблокирован", "is_blocking", "is_blocking")
  ]

  lemma ColumnsWellKeyed()
    ensures WellKeyed(Columns)
    ensures |Columns| == 8
  {
  }

  /** The role column's text. */
  function RoleLabel(role: int): (s: string)
    ensures role == ADMIN <==> s == "Администратор"
    ensures role == PLACE_OWNER <==> s == "Владелец места"
    ensures role != ADMIN && role != PLACE_OWNER <==> s == "Гость"
  {
    if role == 0 then "Администратор" else if role == 1 then "Владелец места" else "Гость"
  }

  /** The blocked column's text: `(val && 'Да') || ''`. */
  function BlockingLabel(isBlocking: bool): (s: string)
    ensures isBlocking <==> s == "Да"
    ensures !isBlocking <==> s == ""
  {
    if isBlocking then "Да" else ""
  }

  /** A user as the table sees it. */
  function Row(u: UserListPage.UserForList): map<string, Value> {
    map["id" := Num(u.id), "username" := Str(u.username), "lastname" := Str(u.lastname),
        "firstname" := Str(u.firstname), "middlename" := Str(u.middlename), "role" := Num(u.role),
        "flat" := Num(u.flat), "is_blocking" := Bool(u.isBlocking)]
  }

  /** The numeric columns sort by value, the blocked column blocked-last, and
      the text columns do not compare (NaN). */
  lemma UserSorting(a: UserListPage.UserForList, b: UserListPage.UserForList)
    ensures Sorter("id", Row(a), Row(b)) == Some(a.id - b.id)
    ensures Sorter("flat", Row(a), Row(b)) == Some(a.flat - b.flat)
    ensures Sorter("role", Row(a), Row(b)) == Some(a.role - b.role)
    ensures Sorter("is_blocking", Row(a), Row(b)) == Some((if a.isBlocking then 1 else 0) - (if b.isBlocking then 1 else 0))
    ensures Sorter("username", Row(a), Row(b)).None?
  {
  }
}

/** The columns of the message table (front/src/pages/MessageList/MessageList.types.ts). */
module MessageColumns {
  import opened Wrappers
  import opened Js
  import opened TableSort
  import opened MessageModel
  import MessageListPage

  const Columns: seq<Column> := [
    Column("ID", "id", "id"),
    Column("Сообщение", "message", "message"),
    Column("Тип", "type", "type"),
    Column("Видимость", "is_visible", "is_visible")
  ]

  lemma ColumnsWellKeyed()
    ensures WellKeyed(Columns)
    ensures |Columns| == 4
  {
  }

  /** The type column's text. */
  function TypeLabel(t: int): (s: string)
    ensures t == 1 <==> s == "внимание"
    ensures t == 2 <==> s == "опасность"
    ensures t != 1 && t != 2 <==> s == "информация"
  {
    if t == 1 then "внимание" else if t == 2 then "опасность" else "информация"
  }

  /** The visibility column's text. */
  function VisibilityLabel(isVisible: bool): (s: string)
    ensures isVisible <==> s == "Да"
    ensures !isVisible <==> s == "Нет"
  {
    if isVisible then "Да" else "Нет"
  }

  /** The table's wording agrees with the colour class the message is shown
      with: warnings, errors, and information for everything else. */
  lemma TypeLabelAgrees(t: int)
    ensures TypeLabel(t) == "внимание" <==> MessageTypeToString(t) == "warning"
    ensures TypeLabel(t) == "опасность" <==> MessageTypeToString(t) == "error"
    ensures TypeLabel(t) == "информация" <==> MessageTypeToString(t) == "info"
  {
  }

  function Row(m: MessageListPage.MessageElem): map<string, Value> {
    map["id" := Num(m.id), "message" := Str(m.message), "type" := Num(m.messageType), "is_visible" := Bool(m.isVisible)]
  }

  lemma MessageSorting(a: MessageListPage.MessageElem, b: MessageListPage.MessageElem)
    ensures Sorter("id", Row(a), Row(b)) == Some(a.id - b.id)
    ensures Sorter("type", Row(a), Row(b)) == Some(a.messageType - b.messageType)
    ensures Sorter("message", Row(a), Row(b)).None?
  {
  }
}
