/** The JSON-like values of the track dictionaries the server and the client
    receive, and the `get_id` lookup that both server/app.py and
    pyjay/commands.py define identically. */
module Ids {

  datatype Json =
    | JNull
    | JBool(b: bool)
    | JNum(n: int)
    | JStr(s: string)
    | JList(items: seq<Json>)
    | JObject(fields: map<string, Json>)

  /** Python's `dict.get(key, default)`: a present key gives its value, even
      when that value is null. */
  function Get(d: map<string, Json>, key: string, default: Json): (r: Json)
    ensures key in d ==> r == d[key]
    ensures key !in d ==> r == default
  {
    if key in d then d[key] else default
  }

  /** The keys `get_id` tries, highest priority first. */
  const IdKeys: seq<string> := ["storeId", "nid", "trackId", "id"]

  /** A priority lookup: the value of the first key of `keys` present in `d`,
      or null when none is. */
  function FirstPresent(d: map<string, Json>, keys: seq<string>): Json
    decreases |keys|
  {
    if keys == [] then JNull
    else if keys[0] in d then d[keys[0]]
    else FirstPresent(d, keys[1..])
  }

  lemma {:induction false} FirstPresentAt(d: map<string, Json>, keys: seq<string>, i: nat)
    requires i < |keys| && keys[i] in d
    requires forall j :: 0 <= j < i ==> keys[j] !in d
    ensures FirstPresent(d, keys) == d[keys[i]]
    decreases i
  {
    if i > 0 {
      assert keys[0] !in d;
      FirstPresentAt(d, keys[1..], i - 1);
    }
  }

  lemma {:induction false} FirstPresentNone(d: map<string, Json>, keys: seq<string>)
    requires forall j :: 0 <= j < |keys| ==> keys[j] !in d
    ensures FirstPresent(d, keys) == JNull
    decreases |keys|
  {
    if keys != [] {
      FirstPresentNone(d, keys[1..]);
    }
  }

  /** `get_id`, written as the source writes it: nested lookups with
      defaults. */
  function GetId(d: map<string, Json>): (r: Json)
    ensures r != JNull ==> r in d.Values
  {
    Get(d, "storeId", Get(d, "nid", Get(d, "trackId", Get(d, "id", JNull))))
  }

  /** `get_id` is the priority lookup over 'storeId', 'nid', 'trackId', 'id'. */
  lemma GetIdIsFirstPresent(d: map<string, Json>)
    ensures GetId(d) == FirstPresent(d, IdKeys)
  {
    if "storeId" in d {
      FirstPresentAt(d, IdKeys, 0);
    } else if "nid" in d {
      FirstPresentAt(d, IdKeys, 1);
    } else if "trackId" in d {
      FirstPresentAt(d, IdKeys, 2);
    } else if "id" in d {
      FirstPresentAt(d, IdKeys, 3);
    } else {
      FirstPresentNone(d, IdKeys);
    }
  }

  /** The value `get_id` returns is that of the highest-priority key present,
      whatever that value is (null included). */
  lemma GetIdFirstKey(d: map<string, Json>, i: nat)
    requires i < |IdKeys| && IdKeys[i] in d
    requires forall j :: 0 <= j < i ==> IdKeys[j] !in d
    ensures GetId(d) == d[IdKeys[i]]
  {
    GetIdIsFirstPresent(d);
    FirstPresentAt(d, IdKeys, i);
  }

  /** With none of the four keys present, `get_id` returns null. */
  lemma GetIdNone(d: map<string, Json>)
    requires forall j :: 0 <= j < |IdKeys| ==> IdKeys[j] !in d
    ensures GetId(d) == JNull
  {
    GetIdIsFirstPresent(d);
    FirstPresentNone(d, IdKeys);
  }
}
