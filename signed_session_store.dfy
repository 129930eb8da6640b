/** The stateless session store (io.jooby.internal.SignedSessionStore): a
    session lives only in a signed token that a SessionToken collaborator
    keeps on the transport. The store decodes the token to find a session
    and re-encodes the attributes to save it; the encoder and the decoder
    (serialisation and signing) are given functions. */
module SignedSessions {
  import opened Common

  /** A session: its id (the signed token it came from, if any), its
      attributes and whether it was created for this request. */
  datatype Session = Session(id: Option<string>, attributes: map<string, string>, isNew: bool)

  /** A call the store made on the token collaborator. */
  datatype TokenCall = SaveToken(token: string) | DeleteToken(cleared: Option<string>)

  /** The SessionToken collaborator, modelled as the one token slot it
      manages (a cookie, say) plus the calls it received. */
  class SessionToken {
    var token: Option<string>
    var calls: seq<TokenCall>

    constructor (token: Option<string>)
      ensures this.token == token && calls == []
    {
      this.token := token;
      calls := [];
    }

    method FindToken() returns (t: Option<string>)
      ensures t == token
    {
      t := token;
    }

    method Save(t: string)
      modifies this
      ensures token == Some(t) && calls == old(calls) + [SaveToken(t)]
    {
      token := Some(t);
      calls := calls + [SaveToken(t)];
    }

    method Delete(t: Option<string>)
      modifies this
      ensures token.None? && calls == old(calls) + [DeleteToken(t)]
    {
      token := None;
      calls := calls + [DeleteToken(t)];
    }
  }

  /** The decision findSession makes from the token and the decoder: no
      session without a token, nor when the token decodes to nothing or to
      no attributes; otherwise an old session identified by the token. */
  function Find(signed: Option<string>, decoder: string -> Option<map<string, string>>): Option<Session> {
    match signed
    case None => None
    case Some(t) =>
      var attributes := decoder(t);
      if attributes.None? || |attributes.value| == 0 then None
      else Some(Session(Some(t), attributes.value, false))
  }

  /** A session is found exactly when there is a token that decodes to a
      non-empty map; it is then identified by that token, holds the decoded
      attributes and is not new. A token that decodes to no attributes is
      treated as no token at all. */
  lemma FindCharacterised(signed: Option<string>, decoder: string -> Option<map<string, string>>)
    ensures Find(signed, decoder).Some? <==>
      signed.Some? && decoder(signed.value).Some? && |decoder(signed.value).value| > 0
    ensures Find(signed, decoder).Some? ==>
      Find(signed, decoder).value == Session(signed, decoder(signed.value).value, false)
    ensures signed.Some? && decoder(signed.value) == Some(map[]) ==> Find(signed, decoder) == Find(None, decoder)
  {
  }

  /** The token touchSession and renewSessionId save for a session. */
  function TokenFor(session: Session, encoder: map<string, string> -> string): string {
    encoder(session.attributes)
  }

  /** When the codec round-trips, a touched session with attributes is found
      again with the same attributes, as an old session named by the new
      token. */
  lemma TouchThenFind(session: Session, encoder: map<string, string> -> string,
                      decoder: string -> Option<map<string, string>>)
    requires decoder(encoder(session.attributes)) == Some(session.attributes)
    ensures var t := TokenFor(session, encoder);
      (|session.attributes| > 0 <==> Find(Some(t), decoder).Some?)
      && (|session.attributes| > 0 ==>
            Find(Some(t), decoder) == Some(Session(Some(t), session.attributes, false)))
  {
  }

  class SignedSessionStore {
    const decoder: string -> Option<map<string, string>>
    const encoder: map<string, string> -> string
    const token: SessionToken

    constructor (token: SessionToken, decoder: string -> Option<map<string, string>>,
                 encoder: map<string, string> -> string)
      ensures this.token == token && this.decoder == decoder && this.encoder == encoder
    {
      this.decoder := decoder;
      this.encoder := encoder;
      this.token := token;
    }

    /** newSession: a session with no id and no attributes, flagged new. */
    function NewSession(): (s: Session)
      ensures s.id.None? && s.isNew && s.attributes == map[]
      ensures Find(s.id, decoder).None?
    {
      Session(None, map[], true)
    }

    /** findSession: the session the current token holds, if any. */
    method FindSession() returns (s: Option<Session>)
      ensures s == Find(token.token, decoder)
    {
      var signed := token.FindToken();
      if signed.None? {
        return None;
      }
      var attributes := decoder(signed.value);
      if attributes.None? || |attributes.value| == 0 {
        return None;
      }
      s := Some(Session(signed, attributes.value, false));
    }

    /** deleteSession: clears the token, passing no token whatever the
        session. */
    method DeleteSession(session: Session)
      modifies token
      ensures token.token.None?
      ensures token.calls == old(token.calls) + [DeleteToken(None)]
    {
      token.Delete(None);
    }

    /** touchSession: saves the encoded attributes as the token. */
    method TouchSession(session: Session)
      modifies token
      ensures token.token == Some(TokenFor(session, encoder))
      ensures token.calls == old(token.calls) + [SaveToken(TokenFor(session, encoder))]
    {
      token.Save(encoder(session.attributes));
    }

    /** saveSession: nothing to do, the token already holds the session. */
    method SaveSession(session: Session)
      ensures token.token == old(token.token) && token.calls == old(token.calls)
    {
    }

    /** renewSessionId: the same as touchSession, there being no id apart
        from the token. */
    method RenewSessionId(session: Session)
      modifies token
      ensures token.token == Some(TokenFor(session, encoder))
      ensures token.calls == old(token.calls) + [SaveToken(TokenFor(session, encoder))]
    {
      token.Save(encoder(session.attributes));
    }
  }

  /** Touching and then finding through the store gives the session back
      when the codec round-trips and the session has attributes. */
  method TouchThenFindSession(store: SignedSessionStore, session: Session) returns (found: Option<Session>)
    requires store.decoder(store.encoder(session.attributes)) == Some(session.attributes)
    requires |session.attributes| > 0
    modifies store.token
    ensures found == Some(Session(Some(store.encoder(session.attributes)), session.attributes, false))
  {
    store.TouchSession(session);
    TouchThenFind(session, store.encoder, store.decoder);
    found := store.FindSession();
  }

  /** After deleteSession no session is found, whatever the decoder. */
  method DeleteThenFindSession(store: SignedSessionStore, session: Session) returns (found: Option<Session>)
    modifies store.token
    ensures found.None?
  {
    store.DeleteSession(session);
    found := store.FindSession();
  }
}
