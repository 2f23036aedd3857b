/**
  Session keys and seed-family keys: what is hashed, and what the hash can and
  cannot tell apart.

  A message is its serialised bytes plus whether its role is "system". Serialised
  JSON holds no raw zero byte (section 7 of RFC 8259), which is the subset type
  below. The digest is a parameter: an arbitrary function from bytes to the hex
  text the source cuts out of SHA-256.
 */
module Keys {
  import opened Options
  import opened Positions
  import Names

  type Bytes = seq<bv8>

  predicate NoZero(b: Bytes) {
    forall i | 0 <= i < |b| :: b[i] != 0
  }

  type Json = b: Bytes | NoZero(b) witness []

  datatype Message = Message(isSystem: bool, json: Json)

  type Digest = Bytes -> string

  /** The serialised system messages, in order: `iter().filter(..)`. */
  function Systems(msgs: seq<Message>): (r: seq<Json>)
    ensures |r| <= |msgs|
  {
    if msgs == [] then []
    else if msgs[0].isSystem then [msgs[0].json] + Systems(msgs[1..])
    else Systems(msgs[1..])
  }

  /** What is fed to the hash: each message followed by a zero byte. */
  function Encode(systems: seq<Json>): Bytes {
    if systems == [] then []
    else systems[0] + [0] + Encode(systems[1..])
  }

  // ------------------------------------------------- unique decodability

  function FirstZero(b: Bytes): (i: nat)
    ensures i <= |b|
    ensures NoZero(b[..i])
    ensures i < |b| ==> b[i] == 0
  {
    if b == [] || b[0] == 0 then 0
    else
      var i := 1 + FirstZero(b[1..]);
      assert b[..i] == [b[0]] + b[1..][..i - 1];
      i
  }

  function Decode(b: Bytes): Option<seq<Json>> {
    if b == [] then Some([])
    else
      var i := FirstZero(b);
      if i == |b| then None
      else
        match Decode(b[i + 1..])
        case None => None
        case Some(rest) => Some([b[..i]] + rest)
  }

  lemma FirstZeroAfter(head: Json, rest: Bytes)
    ensures FirstZero(head + [0] + rest) == |head|
  {
    var b := head + [0] + rest;
    var i := FirstZero(b);
    assert b[|head|] == 0;
    assert forall k | 0 <= k < |head| :: b[k] == head[k];
    assert forall k | 0 <= k < i :: b[k] == b[..i][k];
  }

  lemma {:induction false} DecodeEncode(systems: seq<Json>)
    ensures Decode(Encode(systems)) == Some(systems)
  {
    if systems != [] {
      var head, tail := systems[0], systems[1..];
      var b := Encode(systems);
      FirstZeroAfter(head, Encode(tail));
      assert b == head + [0] + Encode(tail);
      assert b[..|head|] == head && b[|head| + 1..] == Encode(tail);
      DecodeEncode(tail);
      assert systems == [head] + tail;
    }
  }

  /** The preimage of the hash determines the list of system messages. */
  lemma EncodeInjective(a: seq<Json>, b: seq<Json>)
    requires Encode(a) == Encode(b)
    ensures a == b
  {
    DecodeEncode(a);
    DecodeEncode(b);
  }

  // ------------------------------------------------------------ the keys

  const HEADER_PREFIX := "hdr-"
  const FALLBACK_PREFIX := "conv-"

  /** `header` is None when absent or not visible text. */
  function SessionKey(digest: Digest, header: Option<string>, msgs: seq<Message>): string {
    match header
    case Some(v) =>
      if v != "" then HEADER_PREFIX + Names.SanitizeSpec(v)
      else FALLBACK_PREFIX + digest(Encode(Systems(msgs)))
    case None => FALLBACK_PREFIX + digest(Encode(Systems(msgs)))
  }

  /** None: no system message, nothing to seed. */
  function SystemHash(digest: Digest, msgs: seq<Message>): Option<string> {
    var systems := Systems(msgs);
    if systems == [] then None else Some(digest(Encode(systems)))
  }

  lemma {:induction false} SystemsConcat(a: seq<Message>, b: seq<Message>)
    ensures Systems(a + b) == Systems(a) + Systems(b)
  {
    if a == [] {
      assert a + b == b;
    } else {
      assert (a + b)[1..] == a[1..] + b;
      SystemsConcat(a[1..], b);
    }
  }

  // Histories of one conversation: non-system messages come, go and move.
  predicate IsEdit(before: seq<Message>, after: seq<Message>) {
    || (exists i | 0 <= i < |after| :: !after[i].isSystem && before == after[..i] + after[i + 1..])
    || (exists i | 0 <= i < |before| :: !before[i].isSystem && after == before[..i] + before[i + 1..])
    || (|before| == |after| && exists i | 0 <= i < |before| - 1 ::
          SwapsAt(before, after, i))
  }

  predicate SwapsAt(before: seq<Message>, after: seq<Message>, i: nat)
    requires i < |before| - 1
  {
    && !(before[i].isSystem && before[i + 1].isSystem)
    && after == before[i := before[i + 1]][i + 1 := before[i]]
  }

  predicate IsHistory(versions: seq<seq<Message>>) {
    forall k | 0 <= k < |versions| - 1 :: IsEdit(versions[k], versions[k + 1])
  }

  lemma SystemsWithout(msgs: seq<Message>, i: nat)
    requires i < |msgs| && !msgs[i].isSystem
    ensures Systems(msgs[..i] + msgs[i + 1..]) == Systems(msgs)
  {
    assert msgs == msgs[..i] + ([msgs[i]] + msgs[i + 1..]);
    SystemsConcat(msgs[..i], [msgs[i]] + msgs[i + 1..]);
    SystemsConcat(msgs[..i], msgs[i + 1..]);
    assert ([msgs[i]] + msgs[i + 1..])[1..] == msgs[i + 1..];
  }

  lemma SystemsSwap(before: seq<Message>, after: seq<Message>, i: nat)
    requires i < |before| - 1 && SwapsAt(before, after, i)
    ensures Systems(after) == Systems(before)
  {
    var x, y := before[i], before[i + 1];
    var pre, post := before[..i], before[i + 2..];
    assert before == pre + ([x, y] + post);
    assert after == pre + ([y, x] + post);
    SystemsConcat(pre, [x, y] + post);
    SystemsConcat(pre, [y, x] + post);
    SystemsConcat([x, y], post);
    SystemsConcat([y, x], post);
    assert [x, y] == [x] + [y] && [y, x] == [y] + [x];
    SystemsConcat([x], [y]);
    SystemsConcat([y], [x]);
  }

  lemma EditKeepsSystems(before: seq<Message>, after: seq<Message>)
    requires IsEdit(before, after)
    ensures Systems(before) == Systems(after)
  {
    if i :| 0 <= i < |after| && !after[i].isSystem && before == after[..i] + after[i + 1..] {
      SystemsWithout(after, i);
    } else if i :| 0 <= i < |before| && !before[i].isSystem && after == before[..i] + before[i + 1..] {
      SystemsWithout(before, i);
    } else {
      var i :| 0 <= i < |before| - 1 && SwapsAt(before, after, i);
      SystemsSwap(before, after, i);
    }
  }

  /**
    Stickiness: however the turns of one conversation grow, shrink or are
    reordered around its system messages, both keys stay the same.
   */
  lemma {:induction false} KeysAreSticky(digest: Digest, versions: seq<seq<Message>>)
    requires IsHistory(versions) && versions != []
    ensures forall k | 0 <= k < |versions| ::
              && SessionKey(digest, None, versions[k]) == SessionKey(digest, None, versions[0])
              && SystemHash(digest, versions[k]) == SystemHash(digest, versions[0])
  {
    if |versions| > 1 {
      var front := versions[..|versions| - 1];
      forall k | 0 <= k < |front| - 1 ensures IsEdit(front[k], front[k + 1]) {
        assert IsEdit(versions[k], versions[k + 1]);
      }
      KeysAreSticky(digest, front);
      var last := |versions| - 2;
      assert IsEdit(versions[last], versions[last + 1]);
      EditKeepsSystems(versions[last], versions[last + 1]);
      forall k | 0 <= k < |versions|
        ensures SessionKey(digest, None, versions[k]) == SessionKey(digest, None, versions[0])
        ensures SystemHash(digest, versions[k]) == SystemHash(digest, versions[0])
      {
        assert front[last] == versions[last] && front[0] == versions[0];
        if k < |front| {
          assert front[k] == versions[k];
        }
      }
    }
  }

  predicate Collides(digest: Digest, a: Bytes, b: Bytes) {
    a != b && digest(a) == digest(b)
  }

  /**
    Isolation, up to a collision of the digest on the very inputs hashed:
    header-less requests share a session exactly when their system messages are
    the same list.
   */
  lemma KeysIsolate(digest: Digest, a: seq<Message>, b: seq<Message>)
    requires !Collides(digest, Encode(Systems(a)), Encode(Systems(b)))
    ensures SessionKey(digest, None, a) == SessionKey(digest, None, b) <==> Systems(a) == Systems(b)
    ensures SystemHash(digest, a) == SystemHash(digest, b) <==> Systems(a) == Systems(b)
  {
    if Encode(Systems(a)) == Encode(Systems(b)) {
      EncodeInjective(Systems(a), Systems(b));
    }
    var ka, kb := SessionKey(digest, None, a), SessionKey(digest, None, b);
    if ka == kb {
      var da, db := digest(Encode(Systems(a))), digest(Encode(Systems(b)));
      assert ka[|FALLBACK_PREFIX|..] == da && kb[|FALLBACK_PREFIX|..] == db;
    }
  }

  // ------------------------------------------------ keys, message by message

  /** `at` lists, in order, exactly the positions of the system messages. */
  ghost predicate ListsSystems(msgs: seq<Message>, at: seq<nat>) {
    Increasing(at) && forall i: nat :: i in at <==> i < |msgs| && msgs[i].isSystem
  }

  /** The serialised messages at these positions are the same, one by one. */
  ghost predicate SameAt(a: seq<Message>, at: seq<nat>, b: seq<Message>, bt: seq<nat>) {
    && |at| == |bt|
    && forall j | 0 <= j < |at| ::
         at[j] < |a| && j < |bt| && bt[j] < |b| && a[at[j]].json == b[bt[j]].json
  }

  function SystemsAt(msgs: seq<Message>): seq<nat> {
    if msgs == [] then [] else Prepend(msgs[0].isSystem, SystemsAt(msgs[1..]))
  }

  lemma {:induction false} SystemsAtLists(msgs: seq<Message>)
    ensures ListsSystems(msgs, SystemsAt(msgs))
  {
    if msgs != [] {
      SystemsAtLists(msgs[1..]);
      PrependFacts(msgs[0].isSystem, SystemsAt(msgs[1..]));
      forall i: nat ensures i in SystemsAt(msgs) <==> i < |msgs| && msgs[i].isSystem {
        PrependMember(msgs[0].isSystem, SystemsAt(msgs[1..]), i);
      }
    }
  }

  lemma {:induction false} SystemsByPosition(msgs: seq<Message>)
    ensures |Systems(msgs)| == |SystemsAt(msgs)|
    ensures forall j | 0 <= j < |SystemsAt(msgs)| ::
              SystemsAt(msgs)[j] < |msgs| && Systems(msgs)[j] == msgs[SystemsAt(msgs)[j]].json
  {
    if msgs != [] {
      var head, rest := msgs[0].isSystem, SystemsAt(msgs[1..]);
      SystemsByPosition(msgs[1..]);
      SystemsAtLists(msgs[1..]);
      PrependFacts(head, rest);
      var all, tail := Systems(msgs), Systems(msgs[1..]);
      forall j | 0 <= j < |SystemsAt(msgs)|
        ensures SystemsAt(msgs)[j] < |msgs| && all[j] == msgs[SystemsAt(msgs)[j]].json
      {
        var k := From(head, j);
        if k >= 0 {
          assert SystemsAt(msgs)[j] == rest[k] + 1 && all[j] == tail[k];
        }
      }
    }
  }

  lemma SystemsListed(msgs: seq<Message>, at: seq<nat>)
    requires ListsSystems(msgs, at)
    ensures |Systems(msgs)| == |at|
    ensures forall j | 0 <= j < |at| :: at[j] < |msgs| && Systems(msgs)[j] == msgs[at[j]].json
  {
    SystemsAtLists(msgs);
    SameIncreasing(at, SystemsAt(msgs));
    SystemsByPosition(msgs);
  }

  /**
    Header-less requests share a session, and a seed family, exactly when the
    serialised system messages they hold, each taken whole and in order, are the
    same, one by one; up to a collision of the digest on the very inputs hashed.
   */
  lemma KeysCompareMessages(digest: Digest, a: seq<Message>, b: seq<Message>, at: seq<nat>, bt: seq<nat>)
    requires ListsSystems(a, at) && ListsSystems(b, bt)
    requires !Collides(digest, Encode(Systems(a)), Encode(Systems(b)))
    ensures SessionKey(digest, None, a) == SessionKey(digest, None, b) <==> SameAt(a, at, b, bt)
    ensures SystemHash(digest, a) == SystemHash(digest, b) <==> SameAt(a, at, b, bt)
  {
    hide Systems, Encode, SessionKey, SystemHash, ListsSystems;
    KeysIsolate(digest, a, b);
    SystemsListed(a, at);
    SystemsListed(b, bt);
    if SameAt(a, at, b, bt) {
      assert Systems(a) == Systems(b);
    } else if |at| == |bt| {
      var j :| 0 <= j < |at| && a[at[j]].json != b[bt[j]].json;
      assert Systems(a)[j] != Systems(b)[j];
    }
  }

  lemma AllSystems(msgs: seq<Message>)
    requires forall m | m in msgs :: m.isSystem
    ensures ListsSystems(msgs, UpTo(|msgs|))
  {
    forall i: nat ensures i in UpTo(|msgs|) <==> i < |msgs| && msgs[i].isSystem {
      assert i < |msgs| ==> UpTo(|msgs|)[i] == i;
    }
  }

  lemma SameUpTo(a: seq<Message>, b: seq<Message>)
    ensures SameAt(a, UpTo(|a|), b, UpTo(|b|)) <==>
            |a| == |b| && forall i | 0 <= i < |a| :: a[i].json == b[i].json
  {
    var at, bt := UpTo(|a|), UpTo(|b|);
    if SameAt(a, at, b, bt) {
      forall i | 0 <= i < |a| ensures a[i].json == b[i].json {
        assert at[i] == i && bt[i] == i;
      }
    }
  }

  /** For requests of system messages only: the same length, the same texts. */
  lemma KeysCompareSystemLists(digest: Digest, a: seq<Message>, b: seq<Message>)
    requires (forall m | m in a :: m.isSystem) && (forall m | m in b :: m.isSystem)
    requires !Collides(digest, Encode(Systems(a)), Encode(Systems(b)))
    ensures SessionKey(digest, None, a) == SessionKey(digest, None, b) <==>
            |a| == |b| && forall i | 0 <= i < |a| :: a[i].json == b[i].json
  {
    hide Systems, Encode, SessionKey, SystemHash, ListsSystems, SameAt, UpTo;
    AllSystems(a);
    AllSystems(b);
    KeysCompareMessages(digest, a, b, UpTo(|a|), UpTo(|b|));
    SameUpTo(a, b);
  }

  /**
    A client header never names a header-less session, or the reverse; two
    headers name one session exactly when they sanitise to the same text.
   */
  lemma HeaderNeverMeetsFallback(
      digest: Digest, v: string, msgs: seq<Message>, header: Option<string>, msgs': seq<Message>)
    requires v != ""
    ensures SessionKey(digest, Some(v), msgs) == SessionKey(digest, header, msgs') <==>
            header.Some? && header.value != "" && Names.SanitizeSpec(v) == Names.SanitizeSpec(header.value)
  {
    var k, k' := SessionKey(digest, Some(v), msgs), SessionKey(digest, header, msgs');
    assert k[0] == 'h' && k[|HEADER_PREFIX|..] == Names.SanitizeSpec(v);
    if header.Some? && header.value != "" {
      assert k'[|HEADER_PREFIX|..] == Names.SanitizeSpec(header.value);
    } else {
      assert k'[0] == 'c';
    }
  }

  predicate PlainHeader(h: string) {
    && 0 < |h| <= 96
    && (forall i | 0 <= i < |h| ::
          'a' <= h[i] <= 'z' || 'A' <= h[i] <= 'Z' || '0' <= h[i] <= '9' || h[i] in {'.', '_', '-'})
    && (forall i | 0 <= i < |h| - 1 :: h[i] != '.' || h[i + 1] != '.')
  }

  /** The files of a client that sends a plain header can be read off it. */
  lemma PlainHeaderNames(digest: Digest, h: string, msgs: seq<Message>, sig: string)
    requires PlainHeader(h)
    ensures var key := SessionKey(digest, Some(h), msgs);
            && Names.FileName(key, sig, Names.Blob) == "hdr-" + h + "__" + sig + ".bin"
            && Names.FileName(key, sig, Names.Scratch) == "hdr-" + h + "__" + sig + ".bin" + ".save"
            && Names.FileName(key, sig, Names.Sidecar) == "hdr-" + h + "__" + sig + ".bin" + ".ckpt"
            && Names.FileName(key, sig, Names.ScratchSidecar) == "hdr-" + h + "__" + sig + ".bin" + ".save" + ".ckpt"
  {
    hide Names.SanitizeSpec;
    Names.SanitizeFixpoints(h);
    PlainIsSafe(h);
  }

  lemma PlainIsSafe(h: string)
    requires PlainHeader(h)
    ensures Names.SafeKey(h)
  {
  }

  /** A seeded family's blob is never a session's blob. */
  function SeedName(key: string): string {
    "sys-" + key + "__seed.bin"
  }

  lemma SeedNamesApart(digest: Digest, key: string, header: Option<string>, msgs: seq<Message>, sig: string)
    ensures SeedName(key) != Names.BlobName(SessionKey(digest, header, msgs), sig)
  {
    var s := SessionKey(digest, header, msgs);
    assert s[0] == 'h' || s[0] == 'c';
    assert Names.BlobName(s, sig)[0] == s[0];
    assert SeedName(key)[0] == 's';
  }
}
