/**
 Delegate keys: which keys sign for which member, on any run whatever, repeated summonings included.
 */
module MolochDelegates {
  import opened Prelude
  import opened Currency
  import opened Moloch
  import opened MolochRuns

  /** An address that is a member and also a delegate key is its own delegate key. */
  ghost predicate Isolated(s: Storage) {
    forall k :: k in s.members && k in s.addressOfDelegates ==> s.addressOfDelegates[k] == k
  }

  /** The delegate key in a member's record is the member's own address. */
  ghost predicate RecordedKeysAreOwn(s: Storage) {
    forall m :: m in s.members ==> s.members[m].delegateKey == m
  }

  lemma StepKeepsKeys(cfg: Config, s: Storage, who: AccountId, c: Call)
    requires Isolated(s) && RecordedKeysAreOwn(s)
    ensures Isolated(Step(cfg, s, who, c)) && RecordedKeysAreOwn(Step(cfg, s, who, c))
  {
  }

  /** A member's own address never signs for another member. And the key in a member's record is never
      anything but the member's own address, because `update_delegate` does not store the new one. */
  lemma {:induction false} DelegateIsolation(cfg: Config, balances: Ledger, events: seq<Event>)
    ensures Isolated(Run(cfg, balances, events).st) && RecordedKeysAreOwn(Run(cfg, balances, events).st)
  {
    if events != [] {
      var prefix := events[..|events| - 1];
      DelegateIsolation(cfg, balances, prefix);
      var e := events[|events| - 1];
      if e.Dispatch? {
        StepKeepsKeys(cfg, Run(cfg, balances, prefix).st, e.who, e.call);
      }
    }
  }

  predicate SignsFor(s: Storage, k: AccountId, member: AccountId) {
    k in s.addressOfDelegates && s.addressOfDelegates[k] == member
  }

  /** The address that an `update_delegate` revokes: the key on record, which is a member's own address, and
      the default address for anybody else. */
  function RevokedBy(s: Storage, who: AccountId): AccountId {
    if who in s.members then who else DEFAULT_ACCOUNT
  }

  /** After anybody's `update_delegate(key)`, key signs for the caller; of all other keys exactly that one is
      revoked. Earlier delegate keys of the caller go on signing, and keys of other members are not touched. */
  lemma UpdateRevokesOnlyOwnAddress(cfg: Config, balances: Ledger, events: seq<Event>, who: AccountId, key: AccountId,
                                    k: AccountId, member: AccountId)
    requires UpdateDelegateCheck(Run(cfg, balances, events).st, who, key).Accept?
    ensures var s := Run(cfg, balances, events).st;
            var s' := UpdateDelegateEffect(s, who, key);
            && SignsFor(s', key, who)
            && (k != key ==> (SignsFor(s', k, member) <==> SignsFor(s, k, member) && k != RevokedBy(s, who)))
  {
    DelegateIsolation(cfg, balances, events);
  }

  /** Whoever enters by a passed proposal is its own delegate, and a member whose delegate key that
      address was is its own delegate again. */
  lemma NewMemberSignsForItself(cfg: Config, s: Storage, who: AccountId, i: nat)
    requires ProcessProposalCheck(cfg, s, i).Accept? && Passes(cfg, s, s.proposalQueue[i])
    requires s.proposalQueue[i].applicant !in s.members
    ensures var a, s' := s.proposalQueue[i].applicant, ProcessProposalEffect(cfg, s, who, i);
            && a in s'.members && SignsFor(s', a, a)
            && (a in s.addressOfDelegates ==> s.addressOfDelegates[a] in s'.members
                                              && SignsFor(s', s.addressOfDelegates[a], s.addressOfDelegates[a]))
            && forall k, m :: k != a && k != DelegateOf(s, a) ==> (SignsFor(s', k, m) <==> SignsFor(s, k, m))
  {
  }
}
