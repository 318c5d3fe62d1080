/** The webhook event registry and dispatcher: a map from event-type tag to an
    insertion-ordered, duplicate-free set of listeners, and the sequential
    fan-out of one event to the listeners of its tag. */
module Webhooks {

  /** An event-type tag of the code host's webhooks. */
  type WebhookType = string

  /** A listener, known only by its identity. */
  type Listener = nat

  /** What a listener returns for an event; the dispatcher only forwards it. */
  datatype ListenerResponse = ListenerResponse(id: string, notifications: seq<string>)

  /** How one listener's `handleWebhookEvent` settles for the dispatched
      payload: with a response, with `null`, or by throwing. */
  datatype Outcome = Responds(response: ListenerResponse) | Null | Throws(error: string)

  /** How a dispatch settles: the collected responses, or the exception of
      the listener that threw. */
  datatype DispatchResult = Returned(responses: seq<ListenerResponse>) | Threw(error: string)

  /** The first argument of `addListener`: one tag or a list of tags. */
  datatype Events = Single(tag: WebhookType) | Several(tags: seq<WebhookType>)

  /** The tags of `events` as a list: a single tag becomes `[tag]`. */
  function AsList(events: Events): seq<WebhookType> {
    match events
    case Single(e) => [e]
    case Several(es) => es
  }

  predicate NoDuplicates(s: seq<Listener>) {
    forall i, j :: 0 <= i < j < |s| ==> s[i] != s[j]
  }

  /** `Set.add` on an insertion-ordered set: a new member goes last, a
      present one leaves the set as it was. */
  function SetAdd(s: seq<Listener>, l: Listener): (r: seq<Listener>)
    ensures l in r
    ensures l in s ==> r == s
  {
    if l in s then s else s + [l]
  }

  lemma SetAddKeepsNoDuplicates(s: seq<Listener>, l: Listener)
    requires NoDuplicates(s)
    ensures NoDuplicates(SetAdd(s, l))
  {
  }

  lemma NoDuplicatesTail(s: seq<Listener>)
    requires NoDuplicates(s) && s != []
    ensures s[0] !in s[1..] && NoDuplicates(s[1..])
  {
    forall i | 0 <= i < |s| - 1
      ensures s[1..][i] != s[0]
    {
      assert s[1..][i] == s[i + 1];
    }
  }

  /** `Set.delete` on an insertion-ordered set: `l` leaves, everybody else
      stays. */
  function SetDelete(s: seq<Listener>, l: Listener): (r: seq<Listener>)
    ensures forall x :: x in r <==> x in s && x != l
    ensures |r| <= |s|
    ensures l !in s ==> r == s
  {
    if s == [] then []
    else if s[0] == l then SetDelete(s[1..], l)
    else [s[0]] + SetDelete(s[1..], l)
  }

  lemma {:induction false} SetDeleteKeepsNoDuplicates(s: seq<Listener>, l: Listener)
    requires NoDuplicates(s)
    ensures NoDuplicates(SetDelete(s, l))
  {
    if s != [] {
      NoDuplicatesTail(s);
      SetDeleteKeepsNoDuplicates(s[1..], l);
      var rest := SetDelete(s[1..], l);
      if s[0] != l {
        assert s[0] !in rest;
        var r := [s[0]] + rest;
        forall i, j | 0 <= i < j < |r|
          ensures r[i] != r[j]
        {
          assert r[j] == rest[j - 1];
          if i > 0 {
            assert r[i] == rest[i - 1];
          }
        }
      }
    }
  }

  /** In a duplicate-free set, deleting the member at position i leaves the
      others exactly as they were, in the same order. */
  lemma SetDeleteAt(s: seq<Listener>, i: nat)
    requires NoDuplicates(s) && i < |s|
    ensures SetDelete(s, s[i]) == s[..i] + s[i + 1..]
  {
    assert forall k :: 0 <= k < i ==> s[..i][k] == s[k];
    assert forall k :: i + 1 <= k < |s| ==> s[i + 1..][k - i - 1] == s[k];
    SetDeleteOnly(s, i);
  }

  lemma {:induction false} SetDeleteOnly(s: seq<Listener>, i: nat)
    requires i < |s| && s[i] !in s[..i] && s[i] !in s[i + 1..]
    ensures SetDelete(s, s[i]) == s[..i] + s[i + 1..]
  {
    if i == 0 {
      assert s[..0] + s[1..] == s[1..];
    } else {
      var t := s[1..];
      assert t[i - 1] == s[i];
      assert t[..i - 1] == s[1..i] && s[..i] == [s[0]] + t[..i - 1];
      assert t[i..] == s[i + 1..];
      SetDeleteOnly(t, i - 1);
    }
  }

  /** The registry: for each tag that was ever subscribed to, its listeners. */
  type Registry = map<WebhookType, seq<Listener>>

  predicate WellFormed(m: Registry) {
    forall e :: e in m ==> NoDuplicates(m[e])
  }

  /** The listeners of tag e, none when the tag has no entry. */
  function ListenersFor(m: Registry, e: WebhookType): seq<Listener> {
    if e in m then m[e] else []
  }

  /** One iteration of `addListener`'s loop: add l to the set of tag e,
      creating the set `{l}` when e has no entry yet. */
  function SubscribedTo(m: Registry, e: WebhookType, l: Listener): (r: Registry)
    ensures e in r && r[e] == SetAdd(ListenersFor(m, e), l)
    ensures forall t :: t in r <==> t in m || t == e
    ensures forall t :: t in m && t != e ==> r[t] == m[t]
  {
    if e in m then m[e := SetAdd(m[e], l)] else m[e := [l]]
  }

  /** The registry after subscribing l to every tag in `tags`, one tag after
      the other. */
  function Subscribed(m: Registry, tags: seq<WebhookType>, l: Listener): (r: Registry)
  {
    if tags == [] then m
    else
      var init := tags[..|tags| - 1];
      SubscribedTo(Subscribed(m, init, l), tags[|tags| - 1], l)
  }

  /** After `addListener(tags, l)`, tag e has an entry exactly when it had
      one or is among `tags`; if it is among them, its set is the old one
      with l added (appended when new, not moved when present); otherwise
      its set has not changed. */
  lemma {:induction false} SubscribedAt(m: Registry, tags: seq<WebhookType>, l: Listener, e: WebhookType)
    ensures e in Subscribed(m, tags, l) <==> e in m || e in tags
    ensures e in tags ==> Subscribed(m, tags, l)[e] == SetAdd(ListenersFor(m, e), l)
    ensures e !in tags && e in m ==> Subscribed(m, tags, l)[e] == m[e]
  {
    if tags != [] {
      var init, last := tags[..|tags| - 1], tags[|tags| - 1];
      var r0 := Subscribed(m, init, l);
      var r := SubscribedTo(r0, last, l);
      assert Subscribed(m, tags, l) == r;
      SubscribedAt(m, init, l, e);
      InInitOrLast(tags, e);
      if e == last {
        assert e in r && r[e] == SetAdd(ListenersFor(r0, e), l);
        if e in init {
          assert ListenersFor(r0, e) == SetAdd(ListenersFor(m, e), l);
        } else {
          assert ListenersFor(r0, e) == ListenersFor(m, e);
        }
      } else {
        assert e in tags <==> e in init;
        assert e in r <==> e in r0;
        assert e in r ==> r[e] == r0[e];
      }
    }
  }

  lemma InInitOrLast(tags: seq<WebhookType>, e: WebhookType)
    requires tags != []
    ensures e in tags <==> e in tags[..|tags| - 1] || e == tags[|tags| - 1]
  {
    assert tags == tags[..|tags| - 1] + [tags[|tags| - 1]];
  }

  /** `addListener` never puts a listener twice into one set. */
  lemma {:induction false} SubscribedWellFormed(m: Registry, tags: seq<WebhookType>, l: Listener)
    requires WellFormed(m)
    ensures WellFormed(Subscribed(m, tags, l))
  {
    if tags != [] {
      var init, last := tags[..|tags| - 1], tags[|tags| - 1];
      SubscribedWellFormed(m, init, l);
      var r0 := Subscribed(m, init, l);
      if last in r0 {
        SetAddKeepsNoDuplicates(r0[last], l);
      }
    }
  }

  /** The registry after unsubscribing l from every tag; the tags stay. */
  function Unsubscribed(m: Registry, l: Listener): (r: Registry)
    ensures r.Keys == m.Keys
    ensures forall e :: e in r ==> l !in r[e] && r[e] == SetDelete(m[e], l)
  {
    map e | e in m :: SetDelete(m[e], l)
  }

  /** `removeListener` keeps every set duplicate-free. */
  lemma UnsubscribedWellFormed(m: Registry, l: Listener)
    requires WellFormed(m)
    ensures WellFormed(Unsubscribed(m, l))
  {
    forall e | e in m
      ensures NoDuplicates(SetDelete(m[e], l))
    {
      SetDeleteKeepsNoDuplicates(m[e], l);
    }
  }

  /** A single tag is subscribed exactly like the one-element list `[tag]`. */
  lemma SingleTagIsOneElementList(m: Registry, e: WebhookType, l: Listener)
    ensures Subscribed(m, AsList(Single(e)), l) == Subscribed(m, AsList(Several([e])), l)
  {
  }

  /** Subscribing a listener already registered for a tag leaves that tag's
      set as it was, order included: no duplicate delivery. */
  lemma AlreadyRegisteredUnchanged(m: Registry, tags: seq<WebhookType>, e: WebhookType, l: Listener)
    requires e in m && l in m[e]
    ensures ListenersFor(Subscribed(m, tags, l), e) == m[e]
  {
    SubscribedAt(m, tags, l, e);
  }

  /** Subscribing twice is subscribing once. */
  lemma SubscribeIdempotent(m: Registry, tags: seq<WebhookType>, l: Listener)
    ensures Subscribed(Subscribed(m, tags, l), tags, l) == Subscribed(m, tags, l)
  {
    var once := Subscribed(m, tags, l);
    var twice := Subscribed(once, tags, l);
    forall e
      ensures e in twice <==> e in once
      ensures e in twice ==> twice[e] == once[e]
    {
      SubscribedAt(m, tags, l, e);
      SubscribedAt(once, tags, l, e);
    }
    assert twice.Keys == once.Keys;
  }

  /** Removing a listener that was never added changes nothing. */
  lemma RemoveAbsentIsNoOp(m: Registry, l: Listener)
    requires forall e :: e in m ==> l !in m[e]
    ensures Unsubscribed(m, l) == m
  {
  }

  /** Subscribing a fresh listener and then removing it gives back the
      registry, except that tags first created by the subscription remain
      with an empty set. */
  lemma AddThenRemove(m: Registry, tags: seq<WebhookType>, l: Listener)
    requires forall e :: e in m ==> l !in m[e]
    ensures forall e :: e in Unsubscribed(Subscribed(m, tags, l), l) <==> e in m || e in tags
    ensures forall e :: e in m ==> ListenersFor(Unsubscribed(Subscribed(m, tags, l), l), e) == m[e]
    ensures forall e :: e in tags && e !in m ==> ListenersFor(Unsubscribed(Subscribed(m, tags, l), l), e) == []
  {
    var r := Subscribed(m, tags, l);
    forall e
      ensures e in r <==> e in m || e in tags
      ensures e in m ==> ListenersFor(Unsubscribed(r, l), e) == m[e]
      ensures e in tags && e !in m ==> ListenersFor(Unsubscribed(r, l), e) == []
    {
      SubscribedAt(m, tags, l, e);
      if e in m && e in tags {
        SetDeleteAppended(m[e], l);
      }
    }
  }

  lemma {:induction false} SetDeleteAppended(s: seq<Listener>, l: Listener)
    requires l !in s
    ensures SetDelete(s + [l], l) == s
  {
    if s != [] {
      assert (s + [l])[1..] == s[1..] + [l];
      SetDeleteAppended(s[1..], l);
    }
  }

  /** The non-null responses of `listeners`, in order. */
  function Responses(listeners: seq<Listener>, outcome: Listener -> Outcome): (r: seq<ListenerResponse>)
    ensures |r| <= |listeners|
    ensures forall x :: x in r ==> exists i :: 0 <= i < |listeners| && outcome(listeners[i]) == Responds(x)
  {
    if listeners == [] then []
    else
      var rest := Responses(listeners[1..], outcome);
      assert forall i :: 0 <= i < |listeners| - 1 ==> listeners[1..][i] == listeners[i + 1];
      match outcome(listeners[0])
      case Responds(x) => [x] + rest
      case _ => rest
  }

  lemma ResponsesAppend(listeners: seq<Listener>, l: Listener, outcome: Listener -> Outcome)
    ensures Responses(listeners + [l], outcome) ==
            Responses(listeners, outcome) + (if outcome(l).Responds? then [outcome(l).response] else [])
  {
    if listeners != [] {
      assert (listeners + [l])[1..] == listeners[1..] + [l];
    }
  }

  class WebhooksController {
    var eventsToListener: Registry

    ghost predicate Valid()
      reads this
    {
      WellFormed(eventsToListener)
    }

    constructor ()
      ensures Valid() && eventsToListener == map[]
    {
      eventsToListener := map[];
    }

    /** Subscribes `listener` to every tag of `events`. */
    method AddListener(events: Events, listener: Listener)
      requires Valid()
      modifies this
      ensures Valid()
      ensures eventsToListener == Subscribed(old(eventsToListener), AsList(events), listener)
    {
      var tags := AsList(events);
      ghost var m0 := eventsToListener;
      for i := 0 to |tags|
        invariant eventsToListener == Subscribed(m0, tags[..i], listener)
      {
        var e := tags[i];
        ghost var before := eventsToListener;
        if e in eventsToListener {
          eventsToListener := eventsToListener[e := SetAdd(eventsToListener[e], listener)];
        } else {
          eventsToListener := eventsToListener[e := [listener]];
        }
        ghost var prefix := tags[..i + 1];
        assert prefix[..|prefix| - 1] == tags[..i] && prefix[|prefix| - 1] == e;
        assert eventsToListener == SubscribedTo(before, e, listener) == Subscribed(m0, prefix, listener);
      }
      assert tags[..|tags|] == tags;
      SubscribedWellFormed(m0, tags, listener);
    }

    /** Unsubscribes `listener` from every tag. The source walks the sets in
        the map's insertion order; each step touches one set only, so any
        order gives the same registry. */
    method RemoveListener(listener: Listener)
      requires Valid()
      modifies this
      ensures Valid()
      ensures eventsToListener == Unsubscribed(old(eventsToListener), listener)
    {
      var pending := eventsToListener.Keys;
      while pending != {}
        invariant pending <= eventsToListener.Keys == old(eventsToListener).Keys
        invariant forall e :: e in eventsToListener ==>
          eventsToListener[e] == if e in pending then old(eventsToListener)[e]
                                 else SetDelete(old(eventsToListener)[e], listener)
        decreases pending
      {
        var e :| e in pending;
        eventsToListener := eventsToListener[e := SetDelete(eventsToListener[e], listener)];
        pending := pending - {e};
      }
      UnsubscribedWellFormed(old(eventsToListener), listener);
    }

    /** Sends an event of tag `tag` to its listeners one at a time, in
        insertion order; `outcome` says how each listener settles for this
        payload. Returns how the dispatch settled and the listeners invoked,
        in invocation order. */
    method HandleWebhookEvent(tag: WebhookType, outcome: Listener -> Outcome)
      returns (result: DispatchResult, invoked: seq<Listener>)
      requires Valid()
      ensures tag !in eventsToListener ==> result == Returned([]) && invoked == []
      ensures |invoked| <= |ListenersFor(eventsToListener, tag)|
      ensures invoked == ListenersFor(eventsToListener, tag)[..|invoked|]
      ensures NoDuplicates(invoked)
      ensures forall i :: 0 <= i < |invoked| - 1 ==> !outcome(invoked[i]).Throws?
      ensures result.Returned? ==>
        invoked == ListenersFor(eventsToListener, tag) &&
        (forall i :: 0 <= i < |invoked| ==> !outcome(invoked[i]).Throws?) &&
        result.responses == Responses(invoked, outcome)
      ensures result.Threw? ==>
        invoked != [] && outcome(invoked[|invoked| - 1]) == Throws(result.error)
    {
      if tag !in eventsToListener {
        return Returned([]), [];
      }
      var listeners := eventsToListener[tag];
      var responses := [];
      invoked := [];
      for i := 0 to |listeners|
        invariant invoked == listeners[..i]
        invariant forall k :: 0 <= k < i ==> !outcome(listeners[k]).Throws?
        invariant responses == Responses(invoked, outcome)
      {
        var l := listeners[i];
        ResponsesAppend(invoked, l, outcome);
        invoked := invoked + [l];
        assert listeners[..i + 1] == invoked;
        match outcome(l) {
          case Throws(err) =>
            return Threw(err), invoked;
          case Null =>
          case Responds(x) =>
            responses := responses + [x];
        }
      }
      assert listeners[..|listeners|] == listeners;
      result := Returned(responses);
    }
  }
}
