/** Encrypting the marked parts of a JSON tree: `{ _encrypt: payload }` becomes `{ _encrypted: sealed }`, and back. */
module SecretTree {
  import opened Wrappers

  datatype Json = Null | Bool(b: bool) | Num(n: int) | Str(s: string) | Arr(items: seq<Json>) | Obj(entries: seq<Entry>)

  datatype Entry = Entry(key: string, value: Json)

  /** Sealing gives a non-empty string; unsealing fails where it throws. */
  datatype Cipher = Cipher(seal: Json -> string, unseal: Json -> Option<Json>)

  ghost predicate Seals(c: Cipher) { forall v: Json :: c.seal(v) != "" }

  const WRAPPER := "_encrypt"
  const SEALED := "_encrypted"

  predicate Truthy(v: Json) {
    match v
    case Null => false
    case Bool(b) => b
    case Num(n) => n != 0
    case Str(s) => s != ""
    case _ => true
  }

  /** The attribute of an object, if it is there and not falsy. */
  function Attribute(entries: seq<Entry>, key: string): (v: Option<Json>)
    ensures v.Some? ==> Truthy(v.value) && exists i :: 0 <= i < |entries| && entries[i] == Entry(key, v.value)
  {
    if entries == [] then None
    else if entries[0].key == key then (if Truthy(entries[0].value) then Some(entries[0].value) else None)
    else Attribute(entries[1..], key)
  }

  /** `Promise.all`: fails if one fails. */
  function All<T>(results: seq<Option<T>>): Option<seq<T>> {
    if forall i :: 0 <= i < |results| ==> results[i].Some?
    then Some(seq(|results|, i requires 0 <= i < |results| => results[i].value))
    else None
  }

  /** `mapDeep` and `mapObj`; a null among the values throws. */
  function MapDeep(t: Json, fn: Json -> Option<Json>): Option<Json> {
    match t
    case Null => None
    case Arr(items) =>
      var mapped := All(seq(|items|, i requires 0 <= i < |items| => MapDeep(items[i], fn)));
      if mapped.Some? then Some(Arr(mapped.value)) else None
    case Obj(entries) =>
      if Attribute(entries, SEALED).Some? then fn(Attribute(entries, SEALED).value)
      else if Attribute(entries, WRAPPER).Some? then
        var inner := fn(Attribute(entries, WRAPPER).value);
        if inner.Some? then Some(Obj([Entry(SEALED, inner.value)])) else None
      else
        var mapped := All(seq(|entries|, i requires 0 <= i < |entries| => MapEntry(entries[i], fn)));
        if mapped.Some? then Some(Obj(mapped.value)) else None
    case _ => Some(t)
  }

  function MapEntry(e: Entry, fn: Json -> Option<Json>): Option<Entry> {
    var v := MapDeep(e.value, fn);
    if v.Some? then Some(Entry(e.key, v.value)) else None
  }

  function Encrypt(c: Cipher, t: Json): Option<Json> { MapDeep(t, Sealing(c)) }

  function Decrypt(c: Cipher, t: Json): Option<Json> { MapDeep(t, c.unseal) }

  function RoundTrip(c: Cipher, t: Json): Option<Json> {
    var e := Encrypt(c, t);
    if e.Some? then Decrypt(c, e.value) else None
  }

  // ---- what the round trip means ----

  /** Outside of payloads: no null. */
  predicate NullFree(t: Json) {
    match t
    case Null => false
    case Arr(items) => forall i :: 0 <= i < |items| ==> NullFree(items[i])
    case Obj(entries) =>
      || Attribute(entries, SEALED).Some? || Attribute(entries, WRAPPER).Some?
      || forall i :: 0 <= i < |entries| ==> NullFree(entries[i].value)
    case _ => true
  }

  /** Outside of payloads: nothing sealed yet. */
  predicate Unsealed(t: Json) {
    match t
    case Arr(items) => forall i :: 0 <= i < |items| ==> Unsealed(items[i])
    case Obj(entries) =>
      Attribute(entries, SEALED).None?
      && (Attribute(entries, WRAPPER).Some? || forall i :: 0 <= i < |entries| ==> Unsealed(entries[i].value))
    case _ => true
  }

  /** No wrapper is left to seal. */
  predicate Unwrapped(t: Json) {
    match t
    case Arr(items) => forall i :: 0 <= i < |items| ==> Unwrapped(items[i])
    case Obj(entries) =>
      Attribute(entries, SEALED).Some?
      || (Attribute(entries, WRAPPER).None? && forall i :: 0 <= i < |entries| ==> Unwrapped(entries[i].value))
    case _ => true
  }

  /** Each outermost wrapper replaced by its payload, wrappers inside a payload kept. */
  function Opened(t: Json): Json {
    match t
    case Arr(items) => Arr(seq(|items|, i requires 0 <= i < |items| => Opened(items[i])))
    case Obj(entries) =>
      if Attribute(entries, WRAPPER).Some? then Attribute(entries, WRAPPER).value
      else Obj(seq(|entries|, i requires 0 <= i < |entries| => Entry(entries[i].key, Opened(entries[i].value))))
    case _ => t
  }

  /** Encrypting and then decrypting, said of the tree itself, whatever it holds and whatever the cipher gives back.
      What was sealed before is sealed once more and ends as a bare string. */
  function Meaning(c: Cipher, t: Json): Option<Json> {
    match t
    case Null => None
    case Arr(items) =>
      var parts := All(seq(|items|, i requires 0 <= i < |items| => Meaning(c, items[i])));
      if parts.Some? then Some(Arr(parts.value)) else None
    case Obj(entries) =>
      if Attribute(entries, SEALED).Some? then Some(Str(c.seal(Attribute(entries, SEALED).value)))
      else if Attribute(entries, WRAPPER).Some? then c.unseal(Str(c.seal(Attribute(entries, WRAPPER).value)))
      else
        var parts := All(seq(|entries|, i requires 0 <= i < |entries| => EntryMeaning(c, entries[i])));
        if parts.Some? then Some(Obj(parts.value)) else None
    case _ => Some(t)
  }

  function EntryMeaning(c: Cipher, e: Entry): Option<Entry> {
    var v := Meaning(c, e.value);
    if v.Some? then Some(Entry(e.key, v.value)) else None
  }

  function Sealing(c: Cipher): Json -> Option<Json> { v => Some(Str(c.seal(v))) }

  /** A mapped scalar is itself, so an attribute that is falsy stays so. */
  lemma {:induction false} MappedAttribute(entries: seq<Entry>, mapped: seq<Entry>, fn: Json -> Option<Json>,
      key: string)
    requires |mapped| == |entries|
    requires forall i :: 0 <= i < |entries| ==> MapEntry(entries[i], fn) == Some(mapped[i])
    requires Attribute(entries, key).None?
    ensures Attribute(mapped, key).None?
  {
    if entries != [] {
      assert MapEntry(entries[0], fn) == Some(mapped[0]);
      assert MapDeep(entries[0].value, fn) == Some(mapped[0].value);
      if entries[0].key != key {
        MappedAttribute(entries[1..], mapped[1..], fn, key);
      }
    }
  }

  lemma ItemsMean(c: Cipher, items: seq<Json>)
    requires forall i :: 0 <= i < |items| ==> RoundTrip(c, items[i]) == Meaning(c, items[i])
    ensures RoundTrip(c, Arr(items)) == Meaning(c, Arr(items))
  {
    var fn := Sealing(c);
    var parts := seq(|items|, i requires 0 <= i < |items| => Meaning(c, items[i]));
    var sealed := seq(|items|, i requires 0 <= i < |items| => MapDeep(items[i], fn));
    forall i | 0 <= i < |items|
      ensures parts[i] == if sealed[i].Some? then MapDeep(sealed[i].value, c.unseal) else None {
      assert RoundTrip(c, items[i]) == Meaning(c, items[i]);
    }
    if All(sealed).Some? {
      var inner := All(sealed).value;
      assert seq(|inner|, i requires 0 <= i < |inner| => MapDeep(inner[i], c.unseal)) == parts;
    } else {
      assert All(parts).None?;
    }
  }

  lemma EntriesMean(c: Cipher, entries: seq<Entry>)
    requires Attribute(entries, SEALED).None? && Attribute(entries, WRAPPER).None?
    requires forall i :: 0 <= i < |entries| ==> RoundTrip(c, entries[i].value) == Meaning(c, entries[i].value)
    ensures RoundTrip(c, Obj(entries)) == Meaning(c, Obj(entries))
  {
    var fn := Sealing(c);
    var parts := seq(|entries|, i requires 0 <= i < |entries| => EntryMeaning(c, entries[i]));
    var sealed := seq(|entries|, i requires 0 <= i < |entries| => MapEntry(entries[i], fn));
    forall i | 0 <= i < |entries|
      ensures parts[i] == if sealed[i].Some? then MapEntry(sealed[i].value, c.unseal) else None {
      assert RoundTrip(c, entries[i].value) == Meaning(c, entries[i].value);
    }
    if All(sealed).Some? {
      var inner := All(sealed).value;
      MappedAttribute(entries, inner, fn, SEALED);
      MappedAttribute(entries, inner, fn, WRAPPER);
      assert seq(|inner|, i requires 0 <= i < |inner| => MapEntry(inner[i], c.unseal)) == parts;
    } else {
      assert All(parts).None?;
    }
  }

  /** For every tree and every cipher. */
  lemma {:induction false} RoundTripMeans(c: Cipher, t: Json)
    requires Seals(c)
    ensures RoundTrip(c, t) == Meaning(c, t)
    decreases t
  {
    match t
    case Arr(items) =>
      forall i | 0 <= i < |items| ensures RoundTrip(c, items[i]) == Meaning(c, items[i]) {
        RoundTripMeans(c, items[i]);
      }
      ItemsMean(c, items);
    case Obj(entries) =>
      if Attribute(entries, SEALED).None? {
        if Attribute(entries, WRAPPER).None? {
          forall i | 0 <= i < |entries| ensures RoundTrip(c, entries[i].value) == Meaning(c, entries[i].value) {
            RoundTripMeans(c, entries[i].value);
          }
          EntriesMean(c, entries);
        } else {
          var payload := Attribute(entries, WRAPPER).value;
          assert Encrypt(c, t) == Some(Obj([Entry(SEALED, Str(c.seal(payload)))]));
        }
      }
    case _ =>
  }

  /** The payloads come back as they were. */
  ghost predicate GivesBack(c: Cipher) { forall v: Json :: c.unseal(Str(c.seal(v))) == Some(v) }

  lemma {:induction false} MeaningIsOpened(c: Cipher, t: Json)
    requires GivesBack(c)
    ensures Meaning(c, t).Some? <==> NullFree(t)
    ensures NullFree(t) && Unsealed(t) ==> Meaning(c, t) == Some(Opened(t))
    decreases t
  {
    match t
    case Arr(items) =>
      var parts := seq(|items|, i requires 0 <= i < |items| => Meaning(c, items[i]));
      forall i | 0 <= i < |items|
        ensures parts[i].Some? <==> NullFree(items[i])
        ensures NullFree(items[i]) && Unsealed(items[i]) ==> parts[i] == Some(Opened(items[i]))
      {
        MeaningIsOpened(c, items[i]);
      }
      if NullFree(t) && Unsealed(t) {
        assert All(parts).value == Opened(t).items;
      }
    case Obj(entries) =>
      var parts := seq(|entries|, i requires 0 <= i < |entries| => EntryMeaning(c, entries[i]));
      forall i | 0 <= i < |entries|
        ensures parts[i].Some? <==> NullFree(entries[i].value)
        ensures NullFree(entries[i].value) && Unsealed(entries[i].value) ==>
          parts[i] == Some(Entry(entries[i].key, Opened(entries[i].value)))
      {
        MeaningIsOpened(c, entries[i].value);
      }
      if NullFree(t) && Unsealed(t) && Attribute(entries, WRAPPER).None? {
        assert All(parts).value == Opened(t).entries;
      }
    case _ =>
  }

  /** With payloads that come back: the round trip succeeds exactly for trees without null outside of payloads, and if
      nothing was sealed before it opens each outermost wrapper and changes nothing else. */
  lemma DecryptsEncrypted(c: Cipher, t: Json)
    requires Seals(c) && GivesBack(c)
    ensures RoundTrip(c, t).Some? <==> NullFree(t)
    ensures NullFree(t) && Unsealed(t) ==> RoundTrip(c, t) == Some(Opened(t))
  {
    RoundTripMeans(c, t);
    MeaningIsOpened(c, t);
  }

  /** A tree without wrappers comes back unchanged. */
  lemma {:induction false} NothingToOpen(t: Json)
    requires Unsealed(t) && Unwrapped(t)
    ensures Opened(t) == t
    decreases t
  {
    match t
    case Arr(items) =>
      forall i | 0 <= i < |items| ensures Opened(items[i]) == items[i] {
        NothingToOpen(items[i]);
      }
    case Obj(entries) =>
      forall i | 0 <= i < |entries| ensures Opened(entries[i].value) == entries[i].value {
        NothingToOpen(entries[i].value);
      }
    case _ =>
  }

  /** Encrypting leaves no wrapper open. */
  lemma {:induction false} EncryptedIsUnwrapped(c: Cipher, t: Json)
    requires Seals(c) && Encrypt(c, t).Some?
    ensures Unwrapped(Encrypt(c, t).value)
    decreases t
  {
    var fn := Sealing(c);
    match t
    case Arr(items) =>
      forall i | 0 <= i < |items| ensures MapDeep(items[i], fn).Some? && Unwrapped(MapDeep(items[i], fn).value) {
        assert seq(|items|, j requires 0 <= j < |items| => MapDeep(items[j], fn))[i] == MapDeep(items[i], fn);
        EncryptedIsUnwrapped(c, items[i]);
      }
    case Obj(entries) =>
      if Attribute(entries, SEALED).None? && Attribute(entries, WRAPPER).None? {
        forall i | 0 <= i < |entries|
          ensures MapEntry(entries[i], fn).Some? && Unwrapped(MapEntry(entries[i], fn).value.value) {
          assert seq(|entries|, j requires 0 <= j < |entries| => MapEntry(entries[j], fn))[i]
            == MapEntry(entries[i], fn);
          EncryptedIsUnwrapped(c, entries[i].value);
        }
        MappedAttribute(entries, Encrypt(c, t).value.entries, fn, WRAPPER);
      }
    case _ =>
  }
}
