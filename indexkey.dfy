/** The work-queue payload (lib/core/indexkey.go) and the two shapes the controller accepts. */
module IndexKeys {
  import opened Outcomes

  /**
   * The pair of cache keys of one work item. An empty `oldKey` marks a create or
   * delete item; a non-empty `oldKey` marks an update, whose old version the
   * controller fetches as well. Equality is structural, so two items are the
   * same work item (the same queue identity) exactly when both fields agree.
   */
  datatype IndexKey = IndexKey(oldKey: string, newKey: string)

  /**
   * What the controller accepts from the queue: an `IndexKey` value or a bare
   * string key (the Go code type-switches on `interface{}`).
   */
  datatype Item = Keyed(key: IndexKey) | Bare(name: string)

  /** The new key the controller decodes from an item, and below its old key ("" for a bare key). */
  function NewKey(item: Item): string {
    match item
    case Keyed(k) => k.newKey
    case Bare(s) => s
  }

  function OldKey(item: Item): string {
    match item
    case Keyed(k) => k.oldKey
    case Bare(_) => ""
  }

  /** A JSON object as its members in emission order. */
  type JsonObject = seq<(string, string)>

  /**
   * The JSON form given by the struct tags: `old` is omitted when empty
   * (`omitempty`), `new` is always emitted; fields follow declaration order.
   */
  function Marshal(k: IndexKey): (obj: JsonObject)
    ensures ("new", k.newKey) in obj
    ensures (exists v :: ("old", v) in obj) <==> k.oldKey != ""
    ensures forall v :: ("old", v) in obj ==> v == k.oldKey
  {
    (if k.oldKey != "" then [("old", k.oldKey)] else []) + [("new", k.newKey)]
  }

  /** The last value given to member `name`, if any (a later duplicate wins). */
  function Member(obj: JsonObject, name: string): Option<string> {
    if obj == [] then None
    else if obj[|obj| - 1].0 == name then Some(obj[|obj| - 1].1)
    else Member(obj[..|obj| - 1], name)
  }

  /** Decoding the members `Marshal` emits: a missing member leaves the field's zero value "". */
  function Unmarshal(obj: JsonObject): IndexKey {
    var oldKey := match Member(obj, "old") case Some(v) => v case None => "";
    var newKey := match Member(obj, "new") case Some(v) => v case None => "";
    IndexKey(oldKey, newKey)
  }

  /** Omitting an empty `old` loses nothing: decoding the encoding gives the key back. */
  lemma UnmarshalMarshal(k: IndexKey)
    ensures Unmarshal(Marshal(k)) == k
  {
    var obj := Marshal(k);
    if k.oldKey != "" {
      assert obj == [("old", k.oldKey), ("new", k.newKey)];
      assert obj[..1] == [("old", k.oldKey)];
      assert Member(obj, "new") == Some(k.newKey);
      assert Member(obj, "old") == Member(obj[..1], "old") == Some(k.oldKey);
    } else {
      assert obj == [("new", k.newKey)];
      assert obj[..0] == [];
      assert Member(obj, "old") == Member(obj[..0], "old") == None;
    }
  }

  /** Hence the encoded form identifies the work item: equal encodings, equal keys. */
  lemma MarshalInjective(a: IndexKey, b: IndexKey)
    ensures Marshal(a) == Marshal(b) <==> a == b
  {
    if Marshal(a) == Marshal(b) {
      UnmarshalMarshal(a);
      UnmarshalMarshal(b);
    }
  }
}
