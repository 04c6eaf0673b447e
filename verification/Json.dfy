/** JSON values as Python sees them after decoding; numbers keep the text `str` gives them. */
module JsonValues {
  import opened Wrappers
  import opened Texts
  import DecimalText

  datatype Json =
    | Null
    | Bool(b: bool)
    | Num(text: string)
    | Str(text: string)
    | Arr(items: seq<Json>)
    | Obj(fields: Fields)

  type Fields = map<string, Json>

  /** A file that should hold a JSON document. */
  datatype JsonFile = Absent | Unreadable | Holding(content: Json)

  /** `o.get(key)`. */
  function Get(o: Fields, key: string): Json {
    if key in o then o[key] else Null
  }

  /** `o.get(key)` when it is an object, otherwise an empty one. */
  function GetFields(o: Fields, key: string): Fields {
    if Get(o, key).Obj? then Get(o, key).fields else map[]
  }

  function NonEmpty(s: string): Option<string> {
    if s == "" then None else Some(s)
  }

  /** A stripped, non-empty string, or nothing; any other type counts as nothing. */
  function TextOf(j: Json): Option<string> {
    if j.Str? then NonEmpty(Strip(j.text)) else None
  }

  /** `str(j)`; containers print as some non-empty text. */
  function PyStr(j: Json): (s: string)
  {
    match j
    case Null => "None"
    case Bool(b) => if b then "True" else "False"
    case Num(text) => text
    case Str(text) => text
    case Arr(_) => "[]"
    case Obj(_) => "{}"
  }

  /** A text is there exactly when the value is a string with something other than white space in it,
      and then it is that string without the white space around it. */
  lemma TextOfExactly(j: Json, t: string)
    ensures TextOf(j) == Some(t) <==> j.Str? && t == Strip(j.text) && t != ""
    ensures TextOf(j).None? <==> !j.Str? || Strip(j.text) == ""
  {
    hide Strip;
  }

  /** Python truth. */
  predicate Truthy(j: Json) {
    match j
    case Null => false
    case Bool(b) => b
    case Num(text) =>
      var n := DecimalText.ReadDecimal(text);
      n.None? || n.value.coeff != 0
    case Str(text) => text != ""
    case Arr(items) => items != []
    case Obj(fields) => fields != map[]
  }

  /** `str(j or "")`. */
  function PyStrOrEmpty(j: Json): string {
    if Truthy(j) then PyStr(j) else ""
  }
}

/** `guards.py`: keys that look like broker secrets never leave the host. */
module Guards {
  import opened Texts
  import opened Sequences
  import opened JsonValues

  /** The key, so normalized, names a secret. */
  predicate Forbidden(token: string) {
    token in {
      "apikey", "apisecret", "authorization", "bearer", "brokersecret", "clientsecret",
      "password", "passphrase", "privatekey", "secret", "secretkey", "token"
    }
  }

  /** `secret_key_token`: lower case, letters and digits only. */
  function SecretKeyToken(key: string): string {
    Flatten(TokenChar, key)
  }

  function TokenChar(c: char): string {
    if IsAlnum(c) then [LowerChar(c)] else ""
  }

  predicate SafeKey(key: string) {
    !Forbidden(SecretKeyToken(key))
  }

  /** `reject_secret_fields` returns instead of raising. */
  predicate Clean(j: Json) {
    match j
    case Obj(fields) => forall key | key in fields :: SafeKey(key) && Clean(fields[key])
    case Arr(items) => forall item | item in items :: Clean(item)
    case _ => true
  }

  /** No forbidden word starts with these three letters. */
  predicate HarmlessStart(a: char, b: char, c: char) {
    && !(a == 'a' && b == 'p' && c == 'i') && !(a == 'a' && b == 'u' && c == 't')
    && !(a == 'b' && b == 'e' && c == 'a') && !(a == 'b' && b == 'r' && c == 'o')
    && !(a == 'p' && b == 'a' && c == 's') && !(a == 'p' && b == 'r' && c == 'i')
    && !(a == 'c' && b == 'l' && c == 'i') && !(a == 's' && b == 'e' && c == 'c')
    && !(a == 't' && b == 'o' && c == 'k')
  }

  predicate HarmlessKey(key: string) {
    || |key| < 5
    || (IsAlnum(key[0]) && IsAlnum(key[1]) && IsAlnum(key[2])
        && HarmlessStart(LowerChar(key[0]), LowerChar(key[1]), LowerChar(key[2])))
    || key == "clientOrderId"
  }

  lemma TokenStart(key: string)
    requires 3 <= |key| && IsAlnum(key[0]) && IsAlnum(key[1]) && IsAlnum(key[2])
    ensures var t := SecretKeyToken(key);
            && 3 <= |t|
            && t[0] == LowerChar(key[0]) && t[1] == LowerChar(key[1]) && t[2] == LowerChar(key[2])
  {
    var second, third := key[1..], key[2..];
    assert second[1..] == third;
    assert SecretKeyToken(second) == [LowerChar(key[1])] + SecretKeyToken(third);
    assert SecretKeyToken(third) == [LowerChar(key[2])] + SecretKeyToken(third[1..]);
  }

  lemma {:induction false} TokenLength(key: string)
    ensures |SecretKeyToken(key)| <= |key|
    ensures (forall c | c in key :: IsAlnum(c)) ==> |SecretKeyToken(key)| == |key|
  {
    if key != "" {
      TokenLength(key[1..]);
    }
  }

  lemma ForbiddenWords(word: string)
    requires Forbidden(word)
    ensures |word| >= 5 && |word| != 13 ==> !HarmlessStart(word[0], word[1], word[2])
    ensures |word| >= 5
    ensures |word| == 13 ==> word == "authorization"
  {
  }

  /** A key is safe when it is too short or starts like no forbidden word. */
  lemma HarmlessIsSafe(key: string)
    requires HarmlessKey(key)
    ensures SafeKey(key)
  {
    TokenLength(key);
    var t := SecretKeyToken(key);
    if Forbidden(t) {
      ForbiddenWords(t);
      TokenStart(key);
    }
  }

  /** The token of a key is its letters and digits, in order and in lower case. */
  lemma {:induction false} TokenPicks(key: string)
    ensures exists at :: Picked(key, SecretKeyToken(key), IsAlnum, LowerChar, at)
  {
    if key == "" {
      assert Picked(key, SecretKeyToken(key), IsAlnum, LowerChar, []);
    } else {
      hide Picked;
      TokenPicks(key[1..]);
      var at :| Picked(key[1..], SecretKeyToken(key[1..]), IsAlnum, LowerChar, at);
      if IsAlnum(key[0]) {
        PickKept(key[0], key[1..], SecretKeyToken(key[1..]), IsAlnum, LowerChar, at);
      } else {
        PickDropped(key[0], key[1..], SecretKeyToken(key[1..]), IsAlnum, LowerChar, at);
      }
      assert key == [key[0]] + key[1..];
      assert SecretKeyToken(key) == TokenChar(key[0]) + SecretKeyToken(key[1..]);
      assert "" + SecretKeyToken(key[1..]) == SecretKeyToken(key[1..]);
    }
  }

  /** A key is refused exactly when its letters and digits, whatever their case and whatever stands
      between them, are those of one of twelve words. */
  lemma SafeKeyExactly(key: string, letters: string, at: seq<int>)
    requires Picked(key, letters, IsAlnum, LowerChar, at)
    ensures SafeKey(key) <==>
      letters !in {"token", "secret", "secretkey", "privatekey", "passphrase", "password", "clientsecret",
                   "brokersecret", "bearer", "authorization", "apisecret", "apikey"}
  {
    hide Picked;
    TokenPicks(key);
    var own :| Picked(key, SecretKeyToken(key), IsAlnum, LowerChar, own);
    PickedOnce(key, letters, SecretKeyToken(key), IsAlnum, LowerChar, at, own);
  }

  /** One step into a value: to a field of an object, or to an item of a list. */
  datatype Step = Field(key: string) | Item(index: nat)

  /** The value found at the end of a path. */
  function Follow(j: Json, path: seq<Step>): Json {
    if path == [] then j
    else
      match path[0]
      case Field(key) => if j.Obj? && key in j.fields then Follow(j.fields[key], path[1..]) else Null
      case Item(index) => if j.Arr? && index < |j.items| then Follow(j.items[index], path[1..]) else Null
  }

  /** A refused key, at the end of some path. */
  ghost predicate RefusedAt(j: Json, path: seq<Step>, key: string) {
    Follow(j, path).Obj? && key in Follow(j, path).fields && !SafeKey(key)
  }

  /** The guard lets a value through exactly when no object in it, at any depth, has a refused key. */
  lemma {:induction false} CleanExactly(j: Json)
    ensures Clean(j) <==> forall path, key :: !RefusedAt(j, path, key)
  {
    hide SafeKey;
    if Clean(j) {
      forall path, key ensures !RefusedAt(j, path, key) {
        NoneRefused(j, path, key);
      }
    } else {
      RefusedSomewhere(j);
    }
  }

  lemma {:induction false} NoneRefused(j: Json, path: seq<Step>, key: string)
    requires Clean(j)
    ensures !RefusedAt(j, path, key)
    decreases |path|
  {
    hide SafeKey;
    if path != [] && Follow(j, path).Obj? {
      var next := match path[0] case Field(k) => j.fields[k] case Item(i) => j.items[i];
      NoneRefused(next, path[1..], key);
    }
  }

  lemma {:induction false} RefusedSomewhere(j: Json)
    requires !Clean(j)
    ensures exists path, key :: RefusedAt(j, path, key)
  {
    hide SafeKey;
    match j
    case Obj(fields) =>
      var key :| key in fields && !(SafeKey(key) && Clean(fields[key]));
      if !SafeKey(key) {
        assert RefusedAt(j, [], key);
      } else {
        RefusedSomewhere(fields[key]);
        var path, inner :| RefusedAt(fields[key], path, inner);
        assert ([Field(key)] + path)[1..] == path;
        assert RefusedAt(j, [Field(key)] + path, inner);
      }
    case Arr(items) =>
      var i :| 0 <= i < |items| && !Clean(items[i]);
      RefusedSomewhere(items[i]);
      var path, inner :| RefusedAt(items[i], path, inner);
      assert ([Item(i)] + path)[1..] == path;
      assert RefusedAt(j, [Item(i)] + path, inner);
  }

  // ----- building clean objects -----------------------------------------------------------

  /** A dict literal: later entries win. */
  function Build(entries: seq<(string, Json)>): Fields {
    if entries == [] then map[]
    else Build(entries[..|entries| - 1])[entries[|entries| - 1].0 := entries[|entries| - 1].1]
  }

  lemma {:induction false} BuildIsClean(entries: seq<(string, Json)>)
    requires forall e | e in entries :: SafeKey(e.0) && Clean(e.1)
    ensures Clean(Obj(Build(entries)))
  {
    if entries != [] {
      hide SafeKey;
      BuildIsClean(entries[..|entries| - 1]);
    }
  }

  lemma UnionIsClean(a: Fields, b: Fields)
    requires Clean(Obj(a)) && Clean(Obj(b))
    ensures Clean(Obj(a + b))
  {
  }
}
