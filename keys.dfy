/**
 The scoped subscription key: the lookup key of the server's subscription table. It is
 the connection's session id followed by `str()` of the client's subscription id, or
 Python's `None` when the message carries no id; that one `None` key is shared by every
 connection.
 */
module Keys {
  import opened Values

  datatype Key = NoneKey | Scoped(text: string)

  /** The key `on_message` derives for a message with id `id` on session `sid`. */
  function KeyFor(sid: string, id: ClientId): (k: Key)
    ensures k.NoneKey? <==> id.NoId?
    ensures k.Scoped? ==> |sid| <= |k.text| && k.text[..|sid|] == sid && k.text[|sid|..] == Show(id)
  {
    if id.NoId? then NoneKey else Scoped(sid + Show(id))
  }

  /** On one connection, two ids share a key exactly when their `str()` texts agree. */
  lemma SameSessionKeysAgreeIffTextsAgree(sid: string, a: ClientId, b: ClientId)
    requires !a.NoId? && !b.NoId?
    ensures KeyFor(sid, a) == KeyFor(sid, b) <==> Show(a) == Show(b)
  {
    if KeyFor(sid, a) == KeyFor(sid, b) {
      assert Show(a) == KeyFor(sid, a).text[|sid|..];
    }
  }

  /** On one connection, distinct integer ids give distinct keys. */
  lemma IntIdsGiveDistinctKeys(sid: string, i: int, j: int)
    ensures KeyFor(sid, IntId(i)) == KeyFor(sid, IntId(j)) <==> i == j
  {
    SameSessionKeysAgreeIffTextsAgree(sid, IntId(i), IntId(j));
    DecimalInjective(i, j);
  }

  /** An integer id collides with the string id holding its decimal text: the ids `1` and
      `"1"` both become `sid + "1"`. */
  lemma IntAndStrIdsCollide(sid: string, n: int)
    ensures KeyFor(sid, IntId(n)) == KeyFor(sid, StrId(Decimal(n)))
  {
  }

  /** A message without an id gets the same key on every connection. */
  lemma MissingIdKeyIsShared(sid1: string, sid2: string)
    ensures KeyFor(sid1, NoId) == KeyFor(sid2, NoId) == NoneKey
  {
  }

  /** Sessions whose ids have the same length never share a scoped key. */
  lemma EqualLengthSessionsNeverShareKeys(sid1: string, sid2: string, a: ClientId, b: ClientId)
    requires |sid1| == |sid2|
    requires !a.NoId? && !b.NoId?
    ensures KeyFor(sid1, a) == KeyFor(sid2, b) <==> sid1 == sid2 && Show(a) == Show(b)
  {
    if KeyFor(sid1, a) == KeyFor(sid2, b) {
      var t := KeyFor(sid1, a).text;
      assert sid1 == t[..|sid1|] && sid2 == t[..|sid2|];
      assert Show(a) == t[|sid1|..] && Show(b) == t[|sid2|..];
    }
  }

  /** Without that length condition, plain concatenation lets two sessions collide. */
  lemma UnequalLengthSessionsCanShareKeys()
    ensures KeyFor("ab", StrId("c")) == KeyFor("a", StrId("bc"))
  {
  }
}
