/**
 * The data the bot works on (vk_api/models.py): JSON values as the remote
 * API sends them, the Python exceptions the code can raise, incoming
 * messages, reply keyboards and user profiles.
 */
module Models {

  datatype Option<T> = None | Some(value: T)

  /** The Python exceptions the modelled code raises. */
  datatype Failure =
    | ValueError        // max() of an empty list, strptime of a bad date
    | TypeError         // `x in y` where y is None or a number
    | IndexError        // a list index out of range
    | KeyError          // `d[k]` on a dict without the key k
    | AttributeError    // `.get` on None or on something that is not a dict
    | ZeroDivisionError // a division by zero
    | AssertionError    // a failed `assert`

  datatype Result<T> = Ok(value: T) | Err(failure: Failure)

  /** A decoded JSON value; JSON booleans and floats are not modelled. */
  datatype Value =
    | VNone
    | VInt(i: int)
    | VStr(s: string)
    | VList(items: seq<Value>)
    | VObj(fields: map<string, Value>)

  /** Python truthiness of a decoded JSON value. */
  predicate Truthy(v: Value) {
    match v
    case VNone => false
    case VInt(i) => i != 0
    case VStr(s) => s != []
    case VList(items) => items != []
    case VObj(fields) => fields != map[]
  }

  /** `d.get(k, default)` on a dict. */
  function Get(d: map<string, Value>, k: string, default: Value := VNone): (v: Value)
    ensures k in d ==> v == d[k]
    ensures k !in d ==> v == default
  {
    if k in d then d[k] else default
  }

  /** A string field that is present and non-empty, i.e. truthy. */
  predicate Filled(s: Option<string>) {
    s.Some? && s.value != []
  }

  // ---------------------------------------------------------------------
  // Users

  /** A city or a country: the `{"id": ..., "title": ...}` object. An empty
      object would be falsy and is modelled as an absent one. */
  datatype Place = Place(id: int, title: string)

  /** A parsed `datetime`. `ref` is the identity of the Python object: two
      separately parsed dates are distinct objects even when they are equal. */
  datatype BirthDate = BirthDate(ref: nat, day: int, month: int, year: int)

  /** The year strptime fills in when the format has no year. */
  const NoYear := 1900

  /** The user record; `score` and `rate`, which only the matching code
      attaches to copies, live in BotMain.Scored and BotMain.Outcome. */
  datatype Profile = Profile(
    id: int,
    firstName: string,
    lastName: string,
    screenName: string,
    sex: Option<int>,
    status: Option<string>,
    photoId: Option<string>,
    bdate: Option<BirthDate>,
    city: Option<Place>,
    country: Option<Place>,
    relation: Option<int>,
    about: Option<string>)

  /**
   * The birth-date conversion done when a user record is built: an absent
   * date stays absent; otherwise the `%d.%m.%Y` format is tried first and
   * `%d.%m` only when it fails, in which case the year is 1900; when both
   * fail the ValueError escapes. An empty string skips both parses and is
   * then refused by the record's validation of its datetime field, whose
   * error is a ValueError too. The two strptime calls are parameters, and
   * `ref` names the datetime object the successful call creates.
   */
  function ParseBirthDate(bdate: Option<string>, ref: nat,
                          fullFormat: string -> Option<(int, int, int)>,
                          dayMonthFormat: string -> Option<(int, int)>): (r: Result<Option<BirthDate>>)
    ensures r == Ok(None) <==> bdate.None?
    ensures bdate == Some("") ==> r == Err(ValueError)
    ensures r.Ok? && r.value.Some? ==> r.value.value.ref == ref
    ensures Filled(bdate) && fullFormat(bdate.value).Some? ==>
      var (d, m, y) := fullFormat(bdate.value).value;
      r == Ok(Some(BirthDate(ref, d, m, y)))
    ensures Filled(bdate) && fullFormat(bdate.value).None? && dayMonthFormat(bdate.value).Some? ==>
      var (d, m) := dayMonthFormat(bdate.value).value;
      r == Ok(Some(BirthDate(ref, d, m, NoYear)))
    ensures r.Err? <==>
      bdate == Some("") || (Filled(bdate) && fullFormat(bdate.value).None? && dayMonthFormat(bdate.value).None?)
    ensures r.Err? ==> r.failure == ValueError
  {
    if bdate.None? then Ok(None)
    else if bdate.value == "" then Err(ValueError)
    else
      match fullFormat(bdate.value)
      case Some((d, m, y)) => Ok(Some(BirthDate(ref, d, m, y)))
      case None =>
        match dayMonthFormat(bdate.value)
        case Some((d, m)) => Ok(Some(BirthDate(ref, d, m, NoYear)))
        case None => Err(ValueError)
  }

  // ---------------------------------------------------------------------
  // Messages

  /** The `message` object of a `message_new` event, before conversion;
      `payload` is the already decoded JSON of the payload string. */
  datatype RawMessage = RawMessage(
    id: int,
    fromId: int,
    text: string,
    date: Option<int>,
    payload: Option<map<string, Value>>)

  datatype Message = Message(id: int, user: Profile, date: int, text: string, payload: map<string, Value>)

  /** The payload a message without one is given. */
  const DefaultPayload: map<string, Value> := map["command" := VNone]

  /** Builds a Message: a missing payload becomes `{"command": None}` and a
      missing date becomes the timestamp 0. */
  function NewMessage(raw: RawMessage, user: Profile): (m: Message)
    ensures m.id == raw.id && m.user == user && m.text == raw.text
    ensures m.date == (if raw.date.Some? then raw.date.value else 0)
    ensures raw.payload.None? ==> m.payload == DefaultPayload && m.payload.Values == {VNone}
    ensures raw.payload.Some? ==> m.payload == raw.payload.value
  {
    var payload := if raw.payload.Some? then raw.payload.value else DefaultPayload;
    var date := if raw.date.Some? then raw.date.value else 0;
    assert DefaultPayload.Values == {VNone} by {
      assert DefaultPayload["command"] == VNone;
    }
    Message(raw.id, user, date, raw.text, payload)
  }

  // ---------------------------------------------------------------------
  // Keyboards

  datatype Color = Primary | Secondary | Positive | Negative

  /** The string a colour is sent as. */
  function ColorValue(c: Color): string {
    match c
    case Primary => "primary"
    case Secondary => "secondary"
    case Positive => "positive"
    case Negative => "negative"
  }

  datatype Action = Action(actionType: string, payload: map<string, Value>, caption: string)
  datatype Button = Button(action: Action, color: string)

  /** The number of buttons on a keyboard. */
  function ButtonCount(rows: seq<seq<Button>>): nat {
    if rows == [] then 0 else ButtonCount(rows[..|rows| - 1]) + |rows[|rows| - 1]|
  }

  lemma {:induction false} ButtonCountAppendRow(rows: seq<seq<Button>>, row: seq<Button>)
    ensures ButtonCount(rows + [row]) == ButtonCount(rows) + |row|
  {
    assert (rows + [row])[..|rows|] == rows;
  }

  lemma {:induction false} ButtonCountUpdate(rows: seq<seq<Button>>, t: nat, row: seq<Button>)
    requires t < |rows|
    ensures ButtonCount(rows[t := row]) == ButtonCount(rows) - |rows[t]| + |row|
    decreases |rows|
  {
    var last := |rows| - 1;
    var updated := rows[t := row];
    if t == last {
      assert updated[..last] == rows[..last];
    } else {
      ButtonCountUpdate(rows[..last], t, row);
      assert updated[..last] == rows[..last][t := row];
    }
  }

  /** The row a Python index denotes: negative indices count from the end. */
  function RowPosition(rowCount: nat, rowIndex: int): int {
    if rowIndex >= 0 then rowIndex else rowCount + rowIndex
  }

  class Keyboard {
    var oneTime: bool
    var buttons: seq<seq<Button>>

    constructor (oneTime: bool := true)
      ensures this.oneTime == oneTime && buttons == []
    {
      this.oneTime := oneTime;
      buttons := [];
    }

    /**
     * Appends one button at the end of row `rowIndex`, first padding the
     * keyboard with empty rows so that the row exists. A negative index
     * counts from the end, as Python's does, and raises IndexError when it
     * lies before the first row; the keyboard is then unchanged.
     */
    method AddButtonToRow(caption: string, color: Option<Color> := None, command: string := "",
                          btnType: string := "text", rowIndex: int := 0)
      returns (failure: Option<Failure>)
      modifies this`buttons
      ensures oneTime == old(oneTime)
      ensures failure == (if RowPosition(|old(buttons)|, rowIndex) < 0 then Some(IndexError) else None)
      ensures failure.Some? ==> buttons == old(buttons)
      ensures failure.None? ==>
        var t := RowPosition(|old(buttons)|, rowIndex);
        && |buttons| == (if t < |old(buttons)| then |old(buttons)| else t + 1)
        && buttons[t] == (if t < |old(buttons)| then old(buttons)[t] else [])
                         + [Button(Action(btnType, map["command" := VStr(command)], caption),
                                   ColorValue(if color.Some? then color.value else Primary))]
        && (forall i :: 0 <= i < |old(buttons)| && i != t ==> buttons[i] == old(buttons)[i])
        && (forall i :: |old(buttons)| <= i < |buttons| && i != t ==> buttons[i] == [])
      ensures failure.None? ==> ButtonCount(buttons) == ButtonCount(old(buttons)) + 1
    {
      var c := if color.Some? then color.value else Primary;
      var button := Button(Action(btnType, map["command" := VStr(command)], caption), ColorValue(c));
      if |buttons| <= rowIndex {
        var missing := rowIndex + 1 - |buttons|;
        var k := 0;
        while k < missing
          invariant 0 <= k <= missing
          invariant |buttons| == |old(buttons)| + k
          invariant buttons[..|old(buttons)|] == old(buttons)
          invariant forall i :: |old(buttons)| <= i < |buttons| ==> buttons[i] == []
          invariant ButtonCount(buttons) == ButtonCount(old(buttons))
        {
          ButtonCountAppendRow(buttons, []);
          buttons := buttons + [[]];
          k := k + 1;
        }
      }
      var t := RowPosition(|buttons|, rowIndex);
      if t < 0 {
        return Some(IndexError);
      }
      ButtonCountUpdate(buttons, t, buttons[t] + [button]);
      buttons := buttons[t := buttons[t] + [button]];
      return None;
    }
  }
}
