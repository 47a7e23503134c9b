/** The session state holder: the provider keeps the current session, its user and a
    loading flag, and two callbacks of the authentication service overwrite them, in
    whichever order they arrive. */
module UserContext {
  import opened Wrappers

  datatype User = User(id: string, email: Option<string>)

  /** A session as the authentication service reports it; it always carries its user. */
  datatype Session = Session(accessToken: string, user: User)

  /** What `useUser()` returns. */
  datatype ContextValue = ContextValue(user: Option<User>, session: Option<Session>, loading: bool)

  /** The context's default value, which is also the provider's initial state. */
  const DefaultValue := ContextValue(None, None, true)

  /** `session?.user ?? null`. */
  function UserOf(session: Option<Session>): (u: Option<User>)
    ensures u.Some? <==> session.Some?
    ensures u.Some? ==> u.value == session.value.user
  {
    match session
    case Some(s) => Some(s.user)
    case None => None
  }

  /** The user shown is the session's user, or null when there is no session. */
  predicate Consistent(v: ContextValue) {
    v.user == UserOf(v.session)
  }

  /** The two callbacks: the answer to the initial `getSession()` request, and a
      notification from `onAuthStateChange`. */
  datatype AuthEvent = SessionFetched(session: Option<Session>) | AuthStateChanged(session: Option<Session>)

  /** The state after one callback: both set the session and its user; only the
      initial fetch clears the loading flag. */
  function Handle(v: ContextValue, ev: AuthEvent): (w: ContextValue)
    ensures Consistent(w)
    ensures w.session == ev.session
    ensures w.loading <==> v.loading && ev.AuthStateChanged?
  {
    match ev
    case SessionFetched(s) => ContextValue(UserOf(s), s, false)
    case AuthStateChanged(s) => v.(session := s, user := UserOf(s))
  }

  /** The state after a sequence of callbacks, handled in arrival order. */
  function Replay(v: ContextValue, evs: seq<AuthEvent>): ContextValue
    decreases evs
  {
    if evs == [] then v else Replay(Handle(v, evs[0]), evs[1..])
  }

  /** Some callback of the sequence is the initial fetch. */
  predicate Fetched(evs: seq<AuthEvent>) {
    exists k :: 0 <= k < |evs| && evs[k].SessionFetched?
  }

  /** Every reachable state is consistent, whatever the order of the callbacks. */
  lemma {:induction false} ReplayConsistent(v: ContextValue, evs: seq<AuthEvent>)
    requires Consistent(v)
    ensures Consistent(Replay(v, evs))
    decreases evs
  {
    if evs != [] {
      ReplayConsistent(Handle(v, evs[0]), evs[1..]);
    }
  }

  /** The state is still loading exactly when it was loading and no initial fetch has arrived. */
  lemma {:induction false} LoadingUntilFetched(v: ContextValue, evs: seq<AuthEvent>)
    ensures Replay(v, evs).loading <==> v.loading && !Fetched(evs)
    decreases evs
  {
    if evs != [] {
      LoadingUntilFetched(Handle(v, evs[0]), evs[1..]);
      assert Fetched(evs) <==> evs[0].SessionFetched? || Fetched(evs[1..]) by {
        if Fetched(evs) {
          var k :| 0 <= k < |evs| && evs[k].SessionFetched?;
          if k > 0 {
            assert evs[1..][k - 1] == evs[k];
          }
        }
        if Fetched(evs[1..]) {
          var k :| 0 <= k < |evs[1..]| && evs[1..][k].SessionFetched?;
          assert evs[k + 1] == evs[1..][k];
        }
      }
    }
  }

  /** Once loading is over it never starts again. */
  lemma LoadingNeverResumes(v: ContextValue, evs: seq<AuthEvent>)
    requires !v.loading
    ensures !Replay(v, evs).loading
  {
    LoadingUntilFetched(v, evs);
  }

  /** The last callback decides the session and the user. */
  lemma {:induction false} LastCallbackDecides(v: ContextValue, evs: seq<AuthEvent>)
    requires evs != []
    ensures Replay(v, evs).session == evs[|evs| - 1].session
    ensures Replay(v, evs).user == UserOf(evs[|evs| - 1].session)
    decreases evs
  {
    if |evs| > 1 {
      LastCallbackDecides(Handle(v, evs[0]), evs[1..]);
    }
  }

  /** Whether loading is over depends only on which callbacks arrived, not on their order. */
  lemma LoadingIgnoresOrder(evs1: seq<AuthEvent>, evs2: seq<AuthEvent>)
    requires multiset(evs1) == multiset(evs2)
    ensures Replay(DefaultValue, evs1).loading == Replay(DefaultValue, evs2).loading
  {
    LoadingUntilFetched(DefaultValue, evs1);
    LoadingUntilFetched(DefaultValue, evs2);
    assert Fetched(evs1) ==> Fetched(evs2) by {
      if Fetched(evs1) {
        var k :| 0 <= k < |evs1| && evs1[k].SessionFetched?;
        assert evs1[k] in multiset(evs2);
      }
    }
    assert Fetched(evs2) ==> Fetched(evs1) by {
      if Fetched(evs2) {
        var k :| 0 <= k < |evs2| && evs2[k].SessionFetched?;
        assert evs2[k] in multiset(evs1);
      }
    }
  }

  /** Both arrival orders of the two callbacks end consistent and not loading; the
      session is the one of whichever callback came last. */
  lemma EitherArrivalOrder(fetched: Option<Session>, changed: Option<Session>)
    ensures Replay(DefaultValue, [SessionFetched(fetched), AuthStateChanged(changed)])
         == ContextValue(UserOf(changed), changed, false)
    ensures Replay(DefaultValue, [AuthStateChanged(changed), SessionFetched(fetched)])
         == ContextValue(UserOf(fetched), fetched, false)
  {
    var first, second := [SessionFetched(fetched), AuthStateChanged(changed)],
                         [AuthStateChanged(changed), SessionFetched(fetched)];
    LastCallbackDecides(DefaultValue, first);
    LastCallbackDecides(DefaultValue, second);
    LoadingUntilFetched(DefaultValue, first);
    LoadingUntilFetched(DefaultValue, second);
    assert first[0].SessionFetched? && second[1].SessionFetched?;
  }

  /** `UserProvider`: one field per state cell. */
  class UserProvider {
    var session: Option<Session>
    var user: Option<User>
    var loading: bool

    /** The value handed to the context's consumers. */
    function Value(): (v: ContextValue)
      reads this
      ensures v.user == user && v.session == session && v.loading == loading
    {
      ContextValue(user, session, loading)
    }

    ghost predicate Valid()
      reads this
    {
      Consistent(Value())
    }

    /** The provider starts with the context's default value. */
    constructor ()
      ensures Valid() && Value() == DefaultValue
    {
      session, user, loading := None, None, true;
    }

    /** The `getSession()` callback: set the session, then its user, then clear the flag. */
    method OnSessionFetched(s: Option<Session>)
      modifies this
      ensures Valid()
      ensures session == s && user == UserOf(s) && !loading
      ensures Value() == Handle(old(Value()), SessionFetched(s))
    {
      session := s;
      user := UserOf(s);
      loading := false;
    }

    /** The `onAuthStateChange` callback: set the session, then its user; the flag stays. */
    method OnAuthStateChange(s: Option<Session>)
      modifies this
      ensures Valid()
      ensures session == s && user == UserOf(s) && loading == old(loading)
      ensures Value() == Handle(old(Value()), AuthStateChanged(s))
    {
      session := s;
      user := UserOf(s);
    }
  }
}
