/**
 The code generator behind `#[derive(NetworkBehaviour)]` (swarm-derive/src/lib.rs) together with the
 combinator its output runs on, `ConnectionHandlerSelect` (swarm/src/handler/select.rs).

 For a struct with n fields the macro emits a left-nested handler type, one `Either` pattern a field
 to hand events of a connection back to the field, and one `Either` expression a field to address an
 event of the field to its handler. Patterns and expressions are token strings; here they are terms
 with one hole. What has to fit together is fixed nowhere in the macro: three separate loops, and
 the arms of `ConnectionHandlerSelect`, have to agree for every n.
 */
module DeriveRouting {
  import opened Common

  /** `Either::Left(Either::Right(ev))` and the like: constructors around the name `ev`. */
  datatype Term = Ev | LeftOf(inner: Term) | RightOf(inner: Term)

  /** Event types: the event of field i's handler, or the `Either` of a selected pair. */
  datatype Ty = FieldTy(field: nat) | EitherTy(left: Ty, right: Ty)

  /** Run-time values of those types. */
  datatype Value<E> = Event(field: nat, event: E) | Left(value: Value<E>) | Right(value: Value<E>)

  predicate HasType<E>(v: Value<E>, ty: Ty) {
    match (v, ty)
    case (Event(f, _), FieldTy(g)) => f == g
    case (Left(w), EitherTy(l, _)) => HasType(w, l)
    case (Right(w), EitherTy(_, r)) => HasType(w, r)
    case _ => false
  }

  /** A term used as an expression: `v` in the place of `ev`. */
  function Build<E>(t: Term, v: Value<E>): Value<E> {
    match t
    case Ev => v
    case LeftOf(u) => Left(Build(u, v))
    case RightOf(u) => Right(Build(u, v))
  }

  /** A term used as a pattern: what `ev` is bound to, if it matches. */
  function Match<E>(t: Term, v: Value<E>): Option<Value<E>> {
    match (t, v)
    case (Ev, _) => Some(v)
    case (LeftOf(u), Left(w)) => Match(u, w)
    case (RightOf(u), Right(w)) => Match(u, w)
    case _ => None
  }

  // ----- the three generating loops -----

  function Lefts(k: nat, t: Term): Term {
    if k == 0 then t else LeftOf(Lefts(k - 1, t))
  }

  /** The term for field i of n. */
  function FieldTerm(n: nat, i: nat): Term
    requires i < n
  {
    Lefts(n - 1 - i, if i == 0 then Ev else RightOf(Ev))
  }

  /** The rewrapping loop, which the macro has twice: for the patterns and for the expressions. */
  method GenerateFieldTerm(n: nat, i: nat) returns (elem: Term)
    requires i < n
    ensures elem == FieldTerm(n, i)
  {
    elem := if i != 0 then RightOf(Ev) else Ev;
    ghost var start := elem;
    for k := 0 to n - 1 - i
      invariant elem == Lefts(k, start)
    {
      elem := LeftOf(elem);
    }
  }

  /** The left-nested type, by induction on the number of fields. */
  function HandlerTy(n: nat): Ty
    requires n >= 1
  {
    if n == 1 then FieldTy(0) else EitherTy(HandlerTy(n - 1), FieldTy(n - 1))
  }

  /** The loop over the fields that nests the type; a struct without fields gets `()`. */
  method GenerateHandlerTy(n: nat) returns (ty: Option<Ty>)
    ensures ty == if n == 0 then None else Some(HandlerTy(n))
  {
    ty := None;
    for i := 0 to n
      invariant ty == if i == 0 then None else Some(HandlerTy(i))
    {
      match ty {
        case Some(ev) => ty := Some(EitherTy(ev, FieldTy(i)));
        case None => ty := Some(FieldTy(i));
      }
    }
  }

  // ----- terms against types -----

  /** One more field puts one more `Left` around every earlier term. */
  lemma FieldTermStep(n: nat, i: nat)
    requires i < n
    ensures FieldTerm(n + 1, i) == LeftOf(FieldTerm(n, i))
    ensures n >= 1 ==> FieldTerm(n + 1, n) == RightOf(Ev)
  {
  }

  /** The field an event of the derived handler belongs to, read off the value. */
  function Owner<E>(n: nat, v: Value<E>): (i: nat)
    requires n >= 1 && HasType(v, HandlerTy(n))
    ensures i < n
  {
    if n == 1 then 0 else if v.Left? then Owner(n - 1, v.value) else n - 1
  }

  /** The expression generated for field i has the derived handler's event type. */
  lemma {:induction false} ExpressionWellTyped<E>(n: nat, i: nat, e: E)
    requires i < n
    ensures HasType(Build(FieldTerm(n, i), Event(i, e)), HandlerTy(n))
    ensures Owner(n, Build(FieldTerm(n, i), Event(i, e))) == i
  {
    if i < n - 1 {
      FieldTermStep(n - 1, i);
      ExpressionWellTyped(n - 1, i, e);
    } else if n > 1 {
      FieldTermStep(n - 1, 0);
    }
  }

  /**
   Patterns are exhaustive and pairwise disjoint: of the n patterns exactly the owner's matches, and
   it binds an event of that field from which the field's expression rebuilds the whole value.
   */
  lemma {:induction false} ExactlyTheOwnersPatternMatches<E>(n: nat, i: nat, v: Value<E>)
    requires i < n && HasType(v, HandlerTy(n))
    ensures Match(FieldTerm(n, i), v).Some? <==> i == Owner(n, v)
    ensures i == Owner(n, v) ==>
            var ev := Match(FieldTerm(n, i), v).value;
            ev.Event? && ev.field == i && Build(FieldTerm(n, i), ev) == v
  {
    if n > 1 {
      FieldTermStep(n - 1, 0);
      if i < n - 1 {
        FieldTermStep(n - 1, i);
        if v.Left? {
          ExactlyTheOwnersPatternMatches(n - 1, i, v.value);
        }
      }
    }
  }

  lemma {:induction false} MatchOfBuild<E>(t: Term, v: Value<E>)
    ensures Match(t, Build(t, v)) == Some(v)
  {
    match t
    case Ev =>
    case LeftOf(u) => MatchOfBuild(u, v);
    case RightOf(u) => MatchOfBuild(u, v);
  }

  /** Pattern i matches just the values that expression i builds, and gives the event back. */
  lemma PatternInvertsExpression<E>(n: nat, i: nat, e: E, v: Value<E>)
    requires i < n && HasType(v, HandlerTy(n))
    ensures Match(FieldTerm(n, i), v) == Some(Event(i, e)) <==> v == Build(FieldTerm(n, i), Event(i, e))
  {
    ExpressionWellTyped(n, i, e);
    ExactlyTheOwnersPatternMatches(n, i, v);
    ExactlyTheOwnersPatternMatches(n, i, Build(FieldTerm(n, i), Event(i, e)));
    MatchOfBuild(FieldTerm(n, i), Event(i, e));
  }

  /** The generated `match` of `on_connection_handler_event`, arms in field order. */
  function Dispatch<E>(n: nat, v: Value<E>, arm: nat): Option<(nat, Value<E>)>
    requires arm <= n
    decreases n - arm
  {
    if arm == n then None
    else
      match Match(FieldTerm(n, arm), v)
      case Some(ev) => Some((arm, ev))
      case None => Dispatch(n, v, arm + 1)
  }

  lemma {:induction false} DispatchFindsOwner<E>(n: nat, v: Value<E>, arm: nat)
    requires n >= 1 && HasType(v, HandlerTy(n)) && arm <= Owner(n, v)
    ensures Match(FieldTerm(n, Owner(n, v)), v).Some?
    ensures Dispatch(n, v, arm) == Some((Owner(n, v), Match(FieldTerm(n, Owner(n, v)), v).value))
    decreases n - arm
  {
    ExactlyTheOwnersPatternMatches(n, arm, v);
    if arm < Owner(n, v) {
      DispatchFindsOwner(n, v, arm + 1);
      ExactlyTheOwnersPatternMatches(n, Owner(n, v), v);
    }
  }

  // ----- the handlers the macro selects together -----

  datatype Handler = Leaf(field: nat) | Select(proto1: Handler, proto2: Handler)

  /** `ConnectionHandler::select(h, builder)` over the fields, as `handle_established_*` nests it. */
  function HandlerTree(n: nat): Handler
    requires n >= 1
  {
    if n == 1 then Leaf(0) else Select(HandlerTree(n - 1), Leaf(n - 1))
  }

  method GenerateHandler(n: nat) returns (handler: Option<Handler>)
    ensures handler == if n == 0 then None else Some(HandlerTree(n))
  {
    handler := None;
    for i := 0 to n
      invariant handler == if i == 0 then None else Some(HandlerTree(i))
    {
      match handler {
        case Some(h) => handler := Some(Select(h, Leaf(i)));
        case None => handler := Some(Leaf(i));
      }
    }
  }

  /** `on_behaviour_event`: the handler an event ends up at, and the event as it sees it. */
  function OnBehaviourEvent<E>(h: Handler, v: Value<E>): Option<(nat, Value<E>)> {
    match (h, v)
    case (Leaf(f), _) => Some((f, v))
    case (Select(p1, _), Left(w)) => OnBehaviourEvent(p1, w)
    case (Select(_, p2), Right(w)) => OnBehaviourEvent(p2, w)
    case _ => None
  }

  /** `poll`: the first handler is asked first, and what it says is wrapped on the way out. */
  function Poll<E>(h: Handler, ready: nat -> Option<E>): Option<Value<E>> {
    match h
    case Leaf(f) => (match ready(f) case Some(e) => Some(Event(f, e)) case None => None)
    case Select(p1, p2) =>
      match Poll(p1, ready)
      case Some(v) => Some(Left(v))
      case None =>
        match Poll(p2, ready)
        case Some(v) => Some(Right(v))
        case None => None
  }

  /** Towards the handlers: what field i addresses to its handler arrives there, unwrapped. */
  lemma {:induction false} EventReachesItsHandler<E>(n: nat, i: nat, e: E)
    requires i < n
    ensures OnBehaviourEvent(HandlerTree(n), Build(FieldTerm(n, i), Event(i, e))) == Some((i, Event(i, e)))
  {
    if i < n - 1 {
      FieldTermStep(n - 1, i);
      EventReachesItsHandler(n - 1, i, e);
    } else if n > 1 {
      FieldTermStep(n - 1, 0);
    }
  }

  lemma {:induction false} PolledIsFirst<E>(n: nat, ready: nat -> Option<E>)
    requires n >= 1
    ensures Poll(HandlerTree(n), ready).None? <==> forall i :: 0 <= i < n ==> ready(i).None?
    ensures forall i :: 0 <= i < n && ready(i).Some? && (forall j :: 0 <= j < i ==> ready(j).None?) ==>
              Poll(HandlerTree(n), ready) == Some(Build(FieldTerm(n, i), Event(i, ready(i).value)))
  {
    if n > 1 {
      PolledIsFirst(n - 1, ready);
      FieldTermStep(n - 1, 0);
      forall i | 0 <= i < n - 1 ensures FieldTerm(n, i) == LeftOf(FieldTerm(n - 1, i)) {
        FieldTermStep(n - 1, i);
      }
    }
  }

  /**
   Towards the fields: polling the derived handler yields the event of the lowest field that has
   one, in exactly the shape that field's pattern takes apart, and the generated `match` returns it
   to that field. With nothing ready the poll is pending.
   */
  lemma {:induction false} PolledEventReturnsToItsField<E>(n: nat, ready: nat -> Option<E>)
    requires n >= 1
    ensures Poll(HandlerTree(n), ready).None? <==> forall i :: 0 <= i < n ==> ready(i).None?
    ensures forall i :: 0 <= i < n && ready(i).Some? && (forall j :: 0 <= j < i ==> ready(j).None?) ==>
              && Poll(HandlerTree(n), ready) == Some(Build(FieldTerm(n, i), Event(i, ready(i).value)))
              && Dispatch(n, Poll(HandlerTree(n), ready).value, 0) == Some((i, Event(i, ready(i).value)))
  {
    PolledIsFirst(n, ready);
    forall i | 0 <= i < n && ready(i).Some? && forall j :: 0 <= j < i ==> ready(j).None?
      ensures Dispatch(n, Build(FieldTerm(n, i), Event(i, ready(i).value)), 0) == Some((i, Event(i, ready(i).value)))
    {
      var v := Build(FieldTerm(n, i), Event(i, ready(i).value));
      ExpressionWellTyped(n, i, ready(i).value);
      DispatchFindsOwner(n, v, 0);
      MatchOfBuild(FieldTerm(n, i), Event(i, ready(i).value));
    }
  }

  // ----- outcomes of outbound streams -----

  /**
   How the outcome of an outbound stream finds its handler. The negotiated protocol (or the error of
   the upgrade) and the open info were wrapped separately and are taken apart in lock step by
   `transpose`; when they disagree the code panics, here None. An outcome that is no upgrade error
   carries no protocol and follows the info alone.
   */
  function OnOutboundOutcome<E>(h: Handler, outcome: Option<Value<E>>, info: Value<E>)
    : Option<(nat, Option<Value<E>>, Value<E>)>
  {
    match h
    case Leaf(f) => Some((f, outcome, info))
    case Select(p1, p2) =>
      match (outcome, info)
      case (Some(Left(o)), Left(i)) => OnOutboundOutcome(p1, Some(o), i)
      case (Some(Right(o)), Right(i)) => OnOutboundOutcome(p2, Some(o), i)
      case (None, Left(i)) => OnOutboundOutcome(p1, None, i)
      case (None, Right(i)) => OnOutboundOutcome(p2, None, i)
      case _ => None
  }

  /**
   The panic of `transpose` is out of reach exactly when protocol and info come from the same field,
   which is how `poll` makes them; the outcome then goes back to the field that asked for it.
   */
  lemma {:induction false} OutcomeReturnsToRequester<E>(n: nat, i: nat, j: nat, o: E, info: E)
    requires i < n && j < n
    ensures OnOutboundOutcome(HandlerTree(n), Some(Build(FieldTerm(n, j), Event(j, o))),
            Build(FieldTerm(n, i), Event(i, info))) ==
            if i == j then Some((i, Some(Event(i, o)), Event(i, info))) else None
    ensures OnOutboundOutcome(HandlerTree(n), None, Build(FieldTerm(n, i), Event(i, info))) ==
            Some((i, None, Event(i, info)))
  {
    if n > 1 {
      FieldTermStep(n - 1, 0);
      if i < n - 1 {
        FieldTermStep(n - 1, i);
        OutcomeReturnsToRequester(n - 1, i, i, o, info);
      }
      if j < n - 1 {
        FieldTermStep(n - 1, j);
        if i < n - 1 {
          OutcomeReturnsToRequester(n - 1, i, j, o, info);
        }
      }
    }
  }
}
