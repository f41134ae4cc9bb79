/** The send of the service's own objects is made of the steps of the runs: what it does at once, under the user's lock
    and the global one, the runs do in critical sections between which everybody else may act. */
module RelaySending {
  import opened Base
  import opened ChainModel
  import opened Relay
  import Correlation

  /** The comparison with the expected nonce: the user's lock is taken, the chain is looked up, and the hub is asked if
      there is none. */
  function AfterComparing(cfg: Config, s: State, key: Key, nonce: nat, now: nat): State
    requires key !in s.active
  {
    var looked := Do(cfg, Do(cfg, s, Lock(key, nonce)), ReadCache(key, now));
    if key in looked.active && looked.active[key].AskHub? then Do(cfg, looked, ReadHub(key)) else looked
  }

  /** The metatx stays in the send path if and only if it carries the next nonce of its user's chain, or what the hub
      reports if he has none within its TTL; otherwise its request is gone. Nothing but the chain that was past its TTL
      changed. */
  lemma ComparingIsSteps(cfg: Config, s: State, key: Key, nonce: nat, now: nat)
    requires key !in s.active
    ensures var seen := Touch(s.tracker, key, now, cfg.ttl); var s' := AfterComparing(cfg, s, key, nonce, now);
      && s' == s.(tracker := seen, active := s'.active)
      && s'.active == if Expected(seen, key, Some(Hub(s.net, key))) == Some(nonce) then s.active[key := Checked(nonce)] else s.active
  {
    hide Touch;
    var locked := s.active[key := Locked(nonce)];
    assert locked - {key} == s.active && locked[key := Checked(nonce)] == s.active[key := Checked(nonce)];
    var asking := locked[key := AskHub(nonce)];
    assert asking - {key} == s.active && asking[key := Checked(nonce)] == s.active[key := Checked(nonce)];
  }

  /** The request of that user moves from one place of the send path to another, and no other request moves. */
  ghost predicate Moves(s: State, s': State, key: Key, pc: Sender) {
    key in s.active && key in s'.active && s'.active[key] == pc && s'.active - {key} == s.active - {key}
  }

  lemma EnterStep(cfg: Config, s: State, key: Key)
    requires Enabled(s, EnterGlobal(key))
    ensures var s' := Do(cfg, s, EnterGlobal(key));
      s' == s.(active := s'.active, relay := Some(key)) && Moves(s, s', key, Global(s.active[key].nonce))
  {
  }

  lemma SendStep(cfg: Config, s: State, key: Key)
    requires Enabled(s, Send(key))
    ensures var s' := Do(cfg, s, Send(key)); var nonce := s.active[key].nonce;
      && s' == s.(active := s'.active, net := s.net.(wire := s.net.wire + [Tx(key, nonce)]))
      && Moves(s, s', key, Broadcast(nonce, |s.net.wire|))
  {
  }

  lemma NoteStep(cfg: Config, s: State, key: Key, now: nat)
    requires Enabled(s, Note(key, now))
    ensures var s' := Do(cfg, s, Note(key, now)); var pc := s.active[key];
      && s'.tracker == Reserve(s.tracker, key, pc.nonce, true, s.nextId, now, cfg.ttl) && key in s'.tracker.current
      && s'.store == s.store && s'.net == s.net && s'.relay == s.relay
      && Moves(s, s', key, Noted(pc.nonce, pc.hash, s'.tracker.current[key]))
  {
    hide Touch;
  }

  lemma RememberStep(cfg: Config, s: State, key: Key, reqId: string, metaTxId: string, now: nat)
    requires Enabled(s, Remember(key, reqId, metaTxId, now))
    ensures var s' := Do(cfg, s, Remember(key, reqId, metaTxId, now)); var pc := s.active[key];
      && s'.tracker == s.tracker && s'.net == s.net && s'.relay == None && s'.active == s.active - {key}
      && s'.store.memos == s.store.memos[pc.hash := Correlation.Entry(reqId, metaTxId, now, key, Some(pc.chain), false)]
  {
  }

  lemma FailStep(cfg: Config, s: State, key: Key, left: bool)
    requires Enabled(s, FailSend(key, left))
    ensures var s' := Do(cfg, s, FailSend(key, left)); var nonce := s.active[key].nonce;
      && s'.tracker == s.tracker && s'.store == s.store && s'.log == s.log && s'.relay == None
      && s'.net == (if left then s.net.(wire := s.net.wire + [Tx(key, nonce)]) else s.net)
      && Moves(s, s', key, Failed(nonce))
  {
  }

  lemma ForgetFailedStep(cfg: Config, s: State, key: Key)
    requires Enabled(s, ForgetFailed(key))
    ensures Do(cfg, s, ForgetFailed(key)) == s.(tracker := Forget(s.tracker, key), active := s.active - {key})
  {
  }

  /** A look-up by anybody else, and somebody else's spending of a nonce, do to the chains and to the hub just that. */
  lemma OutsideStepsMean(cfg: Config, s: State, key: Key, now: nat)
    ensures Do(cfg, s, Peek(key, now)) == s.(tracker := Touch(s.tracker, key, now, cfg.ttl))
    ensures Do(cfg, s, OtherSpend(key)) == s.(net := s.net.(hub := s.net.hub[key := Hub(s.net, key) + 1]))
  {
  }

  /** The send proper, of a metatx that was found in turn. */
  function AfterSending(cfg: Config, s: State, key: Key, reqId: string, metaTxId: string, reservedAt: nat, rememberedAt: nat): State
    requires key in s.active && s.active[key].Checked? && s.relay == None
  {
    var sent := Do(cfg, Do(cfg, s, EnterGlobal(key)), Send(key));
    Do(cfg, Do(cfg, sent, Note(key, reservedAt)), Remember(key, reqId, metaTxId, rememberedAt))
  }

  /** It puts the metatx on the wire, reserves its nonce on the user's chain, and remembers it with that chain. */
  lemma SendingIsSteps(cfg: Config, s: State, key: Key, reqId: string, metaTxId: string, reservedAt: nat, rememberedAt: nat)
    requires key in s.active && s.active[key].Checked? && s.relay == None
    ensures var nonce, h := s.active[key].nonce, |s.net.wire|;
      var s' := AfterSending(cfg, s, key, reqId, metaTxId, reservedAt, rememberedAt);
      && s'.tracker == Reserve(s.tracker, key, nonce, true, s.nextId, reservedAt, cfg.ttl)
      && key in s'.tracker.current
      && s'.store.memos == s.store.memos[h := Correlation.Entry(reqId, metaTxId, rememberedAt, key, Some(s'.tracker.current[key]), false)]
      && s'.net == s.net.(wire := s.net.wire + [Tx(key, nonce)])
      && s'.active == s.active - {key} && s'.relay == None
  {
    hide Do, Reserve;
    EnterStep(cfg, s, key);
    var entered := Do(cfg, s, EnterGlobal(key));
    SendStep(cfg, entered, key);
    var sent := Do(cfg, entered, Send(key));
    NoteStep(cfg, sent, key, reservedAt);
    RememberStep(cfg, Do(cfg, sent, Note(key, reservedAt)), key, reqId, metaTxId, rememberedAt);
  }

  /** A send that failed, whether or not its transaction left all the same. */
  function AfterFailing(cfg: Config, s: State, key: Key, left: bool): State
    requires key in s.active && s.active[key].Checked? && s.relay == None
  {
    Do(cfg, Do(cfg, Do(cfg, s, EnterGlobal(key)), FailSend(key, left)), ForgetFailed(key))
  }

  /** It drops the user's chain, whatever is in flight on it, and notes and remembers nothing. */
  lemma FailingIsSteps(cfg: Config, s: State, key: Key, left: bool)
    requires key in s.active && s.active[key].Checked? && s.relay == None
    ensures var s' := AfterFailing(cfg, s, key, left);
      && s'.tracker == Forget(s.tracker, key) && s'.store == s.store && s'.log == s.log
      && s'.active == s.active - {key} && s'.relay == None
      && s'.net == if left then s.net.(wire := s.net.wire + [Tx(key, s.active[key].nonce)]) else s.net
  {
    hide Do, Forget;
    EnterStep(cfg, s, key);
    var entered := Do(cfg, s, EnterGlobal(key));
    FailStep(cfg, entered, key, left);
    ForgetFailedStep(cfg, Do(cfg, entered, FailSend(key, left)), key);
  }
}
