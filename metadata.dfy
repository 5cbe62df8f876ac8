/**
 The metadata attached to every RPC request (rpc/src/v1/metadata.rs): where the
 request came from and, for pub-sub transports, the session it arrived on.
 */
module RpcMetadata {
  import opened Wrappers

  /** The identifier of a dapp: a wrapper around its name. */
  datatype DappId = DappId(name: string)

  /** `DappId::default()`: the empty name. */
  const DefaultDappId: DappId := DappId("")

  /** Where a request came from; every origin other than a dapp is opaque here. */
  datatype Origin = Dapps(dapp: DappId) | Unknown | Other(kind: string)

  /** `Origin::default()`. */
  const DefaultOrigin: Origin := Unknown

  /** A transport session (an `Arc<Session>` in the source), as an opaque token. */
  datatype Session = Session(token: nat)

  datatype Metadata = Metadata(origin: Origin, session: Option<Session>)

  /** The derived `Metadata::default()`: default origin, no session. */
  function Default(): (m: Metadata)
    ensures m.session == None
    ensures m.origin == DefaultOrigin
  {
    Metadata(DefaultOrigin, None)
  }

  /**
   `PartialEq::eq` as written. The second check compares the session presence
   of `m` with itself, so it never rejects: equality is origin equality.
   */
  function Eq(m: Metadata, other: Metadata): (r: bool)
    ensures r <==> m.origin == other.origin
  {
    if m.origin != other.origin then
      false
    else if m.session.Some? != m.session.Some? then
      false
    else
      true
  }

  /** Two metadata values with equal origins are equal, whatever their sessions. */
  lemma EqIgnoresSession(m: Metadata, other: Metadata)
    requires m.origin == other.origin
    ensures Eq(m, other)
    ensures Eq(m.(session := None), other.(session := Some(Session(0))))
  {
  }

  /** Different origins are never equal. */
  lemma EqRejectsOtherOrigin(m: Metadata, other: Metadata)
    requires m.origin != other.origin
    ensures !Eq(m, other)
  {
  }

  /** `Eq` is an equivalence relation: it coincides with equality of origins. */
  lemma EqIsEquivalence(a: Metadata, b: Metadata, c: Metadata)
    ensures Eq(a, a)
    ensures Eq(a, b) == Eq(b, a)
    ensures Eq(a, b) && Eq(b, c) ==> Eq(a, c)
  {
  }

  /**
   The equality the session check evidently meant: origins equal and both
   sides either with or without a session.
   */
  function IntendedEq(m: Metadata, other: Metadata): (r: bool)
    ensures r <==> m.origin == other.origin && m.session.Some? == other.session.Some?
    ensures r ==> Eq(m, other)
  {
    if m.origin != other.origin then
      false
    else if m.session.Some? != other.session.Some? then
      false
    else
      true
  }

  /** `IntendedEq` is an equivalence relation as well. */
  lemma IntendedEqIsEquivalence(a: Metadata, b: Metadata, c: Metadata)
    ensures IntendedEq(a, a)
    ensures IntendedEq(a, b) == IntendedEq(b, a)
    ensures IntendedEq(a, b) && IntendedEq(b, c) ==> IntendedEq(a, c)
  {
  }

  /**
   A request with a session and one without, from the same origin: `Eq` calls
   them equal, the intended comparison does not.
   */
  lemma SessionCheckNeverFires()
    ensures Eq(Metadata(Unknown, Some(Session(0))), Metadata(Unknown, None))
    ensures !IntendedEq(Metadata(Unknown, Some(Session(0))), Metadata(Unknown, None))
  {
  }

  /** `dapp_id`: the dapp's id for a dapp request, the default id for any other origin. */
  function DappIdOf(m: Metadata): (d: DappId)
    ensures m.origin.Dapps? ==> d == m.origin.dapp
    ensures !m.origin.Dapps? ==> d == DefaultDappId
  {
    match m.origin
    case Dapps(id) => id
    case _ => DefaultDappId
  }

  /** `PubSubMetadata::session`: the session the request carries, unchanged. */
  function SessionOf(m: Metadata): (s: Option<Session>)
    ensures s == m.session
  {
    m.session
  }
}
