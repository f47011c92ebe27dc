// The connection state machine of the main loop, DHCP to DNS to MQTT, with its callbacks and
// its 32-bit clock. Histories record what the outside sees.

module Connection {
  import opened Bytes

  const TICK := 500        // what one timer interrupt adds to the clock
  const RETRY := 3000

  datatype Phase = StartUp | DhcpIpReceived | DnsIpObtained | MqttConnecting | MqttConnected | MqttDisconnected

  datatype Status = Accepted | Disconnected | Other

  // What the outside sees, in the order it happens. An attempt carries the true time at which
  // the program noted it, and whether the call succeeded.
  datatype Mark = Ask | Answer | Connect(at: nat, ok: bool) | Up | Down | Subscribe

  datatype State = State(
    conn: Phase, subscribed: bool, last: nat,   // myConn, bSubscribed, lastReconnectAttempt
    hung: bool,                                 // a callback with any other status never returns
    now: nat,                                   // the clock as it would be without wrap-around
    marks: seq<Mark>)
  {
    // sys_now()
    function Now(): nat { now % WRAP }
  }

  datatype Step =
    | Tick
    // One pass of the switch. Inputs: whether DHCP has supplied an address; timer interrupts
    // between the two clock reads; whether mqtt_client_connect succeeds.
    | Switch(dhcp: bool, between: nat, ok: bool)
    | DnsAnswer(ours: bool)
    | Mqtt(status: Status)

  const INIT := State(StartUp, false, 0, false, 0, [])

  ghost predicate Enabled(s: State, x: Step)
  {
    match x
    case Tick => true
    case Switch(_, _, _) => !s.hung
    case DnsAnswer(_) => !s.hung && Ask in s.marks && Answer !in s.marks
    case Mqtt(_) => !s.hung && exists i :: 0 <= i < |s.marks| && s.marks[i].Connect?
  }

  // Unsigned 32-bit subtraction.
  function Minus(a: nat, b: nat): nat
    requires a < WRAP && b < WRAP
  {
    if a >= b then a - b else a + WRAP - b
  }

  function Callback(s: State, status: Status): State
  {
    match status
    case Accepted => s.(conn := MqttConnected, marks := s.marks + [Up])
    case Disconnected => s.(conn := MqttDisconnected, marks := s.marks + [Down])
    case Other => s.(hung := true)
  }

  function Attempt(s: State, between: nat, ok: bool): State
  {
    var now := s.now + TICK * between;
    var t := s.(now := now, last := now % WRAP, marks := s.marks + [Connect(now, ok)]);
    if ok then t.(conn := MqttConnecting, subscribed := false) else t
  }

  function Next(s: State, x: Step): State
    requires s.last < WRAP
  {
    match x
    case Tick => s.(now := s.now + TICK)
    case DnsAnswer(ours) => if ours then s.(conn := DnsIpObtained, marks := s.marks + [Answer]) else s
    case Mqtt(status) => Callback(s, status)
    case Switch(dhcp, between, ok) =>
      match s.conn
      case StartUp => if dhcp then s.(conn := DhcpIpReceived, marks := s.marks + [Ask]) else s
      case MqttDisconnected => if Minus(s.Now(), s.last) > RETRY then Attempt(s, between, ok) else s
      case DnsIpObtained => if Minus(s.Now(), s.last) > RETRY then Attempt(s, between, ok) else s
      case MqttConnected => if s.subscribed then s else s.(subscribed := true, marks := s.marks + [Subscribe])
      case _ => s
  }

  ghost predicate Legal(s: State, xs: seq<Step>)
    requires s.last < WRAP
    decreases xs
  {
    xs == [] || (Enabled(s, xs[0]) && Legal(Next(s, xs[0]), xs[1..]))
  }

  ghost function After(s: State, xs: seq<Step>): (t: State)
    requires s.last < WRAP && Legal(s, xs)
    ensures t.last < WRAP
    decreases xs
  {
    if xs == [] then s else After(Next(s, xs[0]), xs[1..])
  }

  // ----- what histories look like -----

  // The question is asked once, first of all, and the answer comes before any attempt.
  ghost predicate Ordered(m: seq<Mark>)
  {
    && (forall i | 0 <= i < |m| :: m[i] == Ask <==> i == 0)
    && (forall i | 0 <= i < |m| :: m[i] == Answer <==> i == 1)
  }

  // Attempts lie more than 3000 apart, and the first more than 3000 after the clock was zero.
  ghost predicate Spaced(m: seq<Mark>)
  {
    && (forall i | 0 <= i < |m| && m[i].Connect? :: m[i].at > 3000)
    && (forall i, j | 0 <= i < j < |m| && m[i].Connect? && m[j].Connect? :: m[j].at > m[i].at + 3000)
  }

  predicate Succeeded(m: Mark) { m.Connect? && m.ok }

  // A subscription directly follows a connection coming up, and between two of them lies a
  // successful attempt.
  ghost predicate SubscribesOnce(m: seq<Mark>)
  {
    && (forall i | 0 <= i < |m| && m[i] == Subscribe :: 0 < i && m[i - 1] == Up)
    && (forall i, j | 0 <= i < j < |m| && m[i] == Subscribe && m[j] == Subscribe ::
          exists k :: i < k < j && Succeeded(m[k]))
  }

  // ----- the invariant -----

  ghost predicate Phases(s: State)
  {
    && (s.conn == StartUp <==> s.marks == [])
    && (s.conn == DhcpIpReceived <==> s.marks == [Ask])
    && (s.conn != StartUp && s.conn != DhcpIpReceived ==> |s.marks| >= 2)
    && (s.conn == MqttConnected ==>
          s.marks[|s.marks| - 1] == Up || (s.subscribed && s.marks[|s.marks| - 1] == Subscribe))
    && Ordered(s.marks)
  }

  ghost predicate Timed(s: State)
  {
    && s.last < WRAP
    && Spaced(s.marks)
    && (forall i | 0 <= i < |s.marks| && s.marks[i].Connect? :: s.marks[i].at <= s.now)
    && exists t: nat :: Noted(s, t)
  }

  // lastReconnectAttempt stands for the true time t of the latest attempt.
  ghost predicate Noted(s: State, t: nat)
  {
    && t <= s.now && s.last == t % WRAP
    && forall i | 0 <= i < |s.marks| && s.marks[i].Connect? :: s.marks[i].at <= t
  }

  ghost predicate Subscribed(s: State)
  {
    && SubscribesOnce(s.marks)
    && (!s.subscribed ==> forall i | 0 <= i < |s.marks| && s.marks[i] == Subscribe ::
          exists k :: i < k < |s.marks| && Succeeded(s.marks[k]))
  }

  ghost predicate Inv(s: State) { Phases(s) && Timed(s) && Subscribed(s) }

  // ----- its parts are kept -----

  lemma ElapsedTime(a: nat, b: nat)
    requires b <= a
    ensures Minus(a % WRAP, b % WRAP) <= a - b
    ensures a - b < WRAP ==> Minus(a % WRAP, b % WRAP) == a - b
  {
    var qa, qb := a / WRAP, b / WRAP;
    assert a == WRAP * qa + a % WRAP && b == WRAP * qb + b % WRAP;
    assert qb <= qa;
  }

  lemma OrderedMore(m: seq<Mark>, x: Mark)
    requires Ordered(m) && (x == Ask <==> m == []) && (x == Answer <==> |m| == 1)
    ensures Ordered(m + [x])
  {
    var n := m + [x];
    forall i | 0 <= i < |n| ensures (n[i] == Ask <==> i == 0) && (n[i] == Answer <==> i == 1) {
      if i < |m| { assert n[i] == m[i]; }
    }
  }

  lemma PhasesKept(s: State, x: Step)
    requires Phases(s) && s.last < WRAP && Enabled(s, x)
    ensures Phases(Next(s, x))
  {
    var u := Next(s, x);
    MarksSoFar(s, x);
    hide Ordered, Enabled;
    if |u.marks| > |s.marks| {
      var y := u.marks[|s.marks|];
      assert u.marks == s.marks + [y];
      OrderedMore(s.marks, y);
    } else {
      assert u.marks == s.marks;
    }
  }

  lemma AnswerSecond(m: seq<Mark>)
    requires Ordered(m)
    ensures |m| > 1 ==> Answer in m
  {
    if |m| > 1 { assert m[1] == Answer; }
  }

  // Callbacks come late enough.
  lemma MarksSoFar(s: State, x: Step)
    requires Ordered(s.marks) && Enabled(s, x)
    ensures x.DnsAnswer? ==> s.marks == [Ask]
    ensures x.Mqtt? ==> |s.marks| >= 2
  {
    if x.DnsAnswer? {
      assert s.marks[0] == Ask;
      AnswerSecond(s.marks);
    }
    if x.Mqtt? {
      var i :| 0 <= i < |s.marks| && s.marks[i].Connect?;
      assert i != 0 && s.marks[0] == Ask;
    }
  }

  lemma SpacedMore(m: seq<Mark>, x: Mark)
    requires Spaced(m)
    requires x.Connect? ==> x.at > RETRY && forall i | 0 <= i < |m| && m[i].Connect? :: x.at > m[i].at + RETRY
    ensures Spaced(m + [x])
  {
    var n := m + [x];
    forall i, j | 0 <= i < j < |n| && n[i].Connect? && n[j].Connect? ensures n[j].at > n[i].at + RETRY {
      assert n[i] == m[i];
      if j < |m| { assert n[j] == m[j]; }
    }
  }

  // A step appends at most one mark, and only an attempt touches what the clock part looks at.
  lemma OneMark(s: State, x: Step)
    requires s.last < WRAP
    ensures var u := Next(s, x);
            && s.now <= u.now && |s.marks| <= |u.marks| <= |s.marks| + 1
            && (|u.marks| == |s.marks| ==> u.marks == s.marks)
            && (|u.marks| > |s.marks| ==> u.marks == s.marks + [u.marks[|s.marks|]])
            && if |u.marks| > |s.marks| && u.marks[|s.marks|].Connect?
               then Minus(s.Now(), s.last) > RETRY && u.marks[|s.marks|].at == u.now && u.last == u.now % WRAP
               else u.last == s.last
  {
    hide Minus, Attempt, Callback;
    match x
    case Switch(_, between, ok) => AttemptMark(s, between, ok);
    case Mqtt(status) => CallbackMark(s, status);
    case _ =>
  }

  lemma AttemptMark(s: State, between: nat, ok: bool)
    ensures var u, now := Attempt(s, between, ok), s.now + TICK * between;
            u.marks == s.marks + [Connect(now, ok)] && u.now == now && u.last == now % WRAP
  {
  }

  lemma CallbackMark(s: State, status: Status)
    ensures var u := Callback(s, status);
            && u.now == s.now && u.last == s.last
            && (u.marks == s.marks || u.marks == s.marks + [Up] || u.marks == s.marks + [Down])
  {
  }

  lemma TimedKept(s: State, x: Step)
    requires Timed(s) && Enabled(s, x)
    ensures Timed(Next(s, x))
  {
    var t: nat :| Noted(s, t);
    var u := Next(s, x);
    ElapsedTime(s.now, t);
    OneMark(s, x);
    hide Spaced, Enabled, Minus, Next;
    if |u.marks| > |s.marks| {
      var y := u.marks[|s.marks|];
      SpacedMore(s.marks, y);
      assert Noted(u, if y.Connect? then u.now else t);
    } else {
      assert Noted(u, t);
    }
  }

  lemma SubscribedMore(m: seq<Mark>, x: Mark)
    requires SubscribesOnce(m)
    requires x == Subscribe ==> m != [] && m[|m| - 1] == Up
    requires x == Subscribe ==>
               forall i | 0 <= i < |m| && m[i] == Subscribe :: exists k :: i < k < |m| && Succeeded(m[k])
    ensures SubscribesOnce(m + [x])
  {
    var n := m + [x];
    forall i, j | 0 <= i < j < |n| && n[i] == Subscribe && n[j] == Subscribe
      ensures exists k :: i < k < j && Succeeded(n[k])
    {
      assert n[i] == m[i];
      if j < |m| { assert n[j] == m[j]; }
      var k :| i < k < (if j < |m| then j else |m|) && Succeeded(m[k]);
      assert Succeeded(n[k]);
    }
  }

  lemma SubscribedKept(s: State, x: Step)
    requires Subscribed(s) && Phases(s) && s.last < WRAP && Enabled(s, x)
    ensures Subscribed(Next(s, x))
  {
    hide SubscribesOnce, Ordered;
    var m, u := s.marks, Next(s, x);
    if |u.marks| > |m| {
      var y := u.marks[|m|];
      assert u.marks == m + [y];
      SubscribedMore(m, y);
      if !u.subscribed {
        forall i | 0 <= i < |u.marks| && u.marks[i] == Subscribe
          ensures exists k :: i < k < |u.marks| && Succeeded(u.marks[k])
        {
          if Succeeded(y) { assert Succeeded(u.marks[|m|]); }
          else {
            var k :| i < k < |m| && Succeeded(m[k]);
            assert Succeeded(u.marks[k]);
          }
        }
      }
    }
  }

  lemma InvKept(s: State, x: Step)
    requires Inv(s) && Enabled(s, x)
    ensures Inv(Next(s, x))
  {
    hide Phases, Timed, Subscribed, Next;
    LastIsWord(s);
    PhasesKept(s, x);
    TimedKept(s, x);
    SubscribedKept(s, x);
  }

  lemma LastIsWord(s: State)
    requires Inv(s)
    ensures s.last < WRAP
  {
  }

  lemma InitialInv(now: nat)
    ensures Inv(INIT.(now := now))
  {
    assert Noted(INIT.(now := now), 0);
  }

  lemma {:induction false} InvAlways(s: State, xs: seq<Step>)
    requires Inv(s) && s.last < WRAP && Legal(s, xs)
    ensures Inv(After(s, xs))
    decreases xs
  {
    hide Inv, Next, Enabled;
    if xs != [] {
      InvKept(s, xs[0]);
      LastIsWord(Next(s, xs[0]));
      InvAlways(Next(s, xs[0]), xs[1..]);
    }
  }

  // ----- every run -----

  // DHCP is left once and for all: the broker's name is asked for once, before everything
  // else, its address arrives next, and every attempt comes after that.
  lemma ConnectionRuns(now: nat, xs: seq<Step>)
    requires Legal(INIT.(now := now), xs)
    ensures var s := After(INIT.(now := now), xs);
            && Ordered(s.marks) && Spaced(s.marks) && SubscribesOnce(s.marks)
            && (s.conn == StartUp <==> s.marks == []) && s.marks == Seen([], now, xs) && Turned(s.marks)
            && (Ask in s.marks <==> exists i :: 0 <= i < |xs| && xs[i].Switch? && xs[i].dhcp)
            && (Answer in s.marks <==> DnsAnswer(true) in xs)
  {
    hide Ordered, Spaced, SubscribesOnce, After, Turned, Seen;
    InitialInv(now);
    InvAlways(INIT.(now := now), xs);
    SeenExactly(now, xs);
    AskedExactly(now, xs);
    AnsweredExactly([], now, xs);
    TurnedAlways(now, xs);
  }

  // An attempt is made exactly when more than RETRY has passed since the latest one, as long
  // as the clock has not gone round since; after that the wrapped difference decides.
  lemma AttemptExactly(s: State, t: nat, dhcp: bool, between: nat, ok: bool)
    requires Inv(s) && Noted(s, t) && (s.conn == MqttDisconnected || s.conn == DnsIpObtained)
    ensures s.now - t < WRAP ==>
              (Next(s, Switch(dhcp, between, ok)).marks != s.marks <==> s.now - t > RETRY)
    ensures Next(s, Switch(dhcp, between, ok)).marks != s.marks ==> s.now - t > RETRY
  {
    ElapsedTime(s.now, t);
    var u := Next(s, Switch(dhcp, between, ok));
    assert |u.marks| > |s.marks| <==> Minus(s.Now(), s.last) > RETRY;
  }

  // ----- what is to be seen, from what was seen -----

  // The marks that say how the connection stands.
  predicate IsLink(m: Mark) { m == Answer || Succeeded(m) || m == Up || m == Down }

  // The latest of them; before the first one, the question.
  function LatestLink(m: seq<Mark>): Mark
  {
    if m == [] then Ask
    else if IsLink(m[|m| - 1]) then m[|m| - 1] else LatestLink(m[..|m| - 1])
  }

  // When the latest attempt was made, 0 if none was.
  function LatestAttempt(m: seq<Mark>): nat
  {
    if m == [] then 0
    else if m[|m| - 1].Connect? then m[|m| - 1].at else LatestAttempt(m[..|m| - 1])
  }

  // Whether a subscription was made since the latest successful attempt.
  predicate SubscribedSince(m: seq<Mark>)
  {
    m != [] && (m[|m| - 1] == Subscribe || (!Succeeded(m[|m| - 1]) && SubscribedSince(m[..|m| - 1])))
  }

  // What a step is to add to the history, from the history, the true time and the step's inputs
  // alone: the broker's name is asked for once DHCP has supplied an address; a connection is tried
  // when the address has come or the last one has gone, and the retry time has passed on the
  // 32-bit clock; a subscription is made when a connection has come up.
  function Due(m: seq<Mark>, now: nat, x: Step): seq<Mark>
  {
    match x
    case Tick => []
    case DnsAnswer(ours) => if ours then [Answer] else []
    case Mqtt(status) => if status == Accepted then [Up] else if status == Disconnected then [Down] else []
    case Switch(dhcp, between, ok) =>
      if m == [] then (if dhcp then [Ask] else [])
      else
        var link := LatestLink(m);
        if link == Answer || link == Down then
          if (now - LatestAttempt(m)) % 0x1_0000_0000 > 3000 then [Connect(now + 500 * between, ok)] else []
        else if link == Up && !SubscribedSince(m) then [Subscribe]
        else []
  }

  function Elapses(m: seq<Mark>, now: nat, x: Step): nat
  {
    match x
    case Tick => 500
    case Switch(dhcp, between, ok) =>
      if Due(m, now, x) == [Connect(now + 500 * between, ok)] then 500 * between else 0
    case _ => 0
  }

  // The history of a whole run.
  function Seen(m: seq<Mark>, now: nat, xs: seq<Step>): seq<Mark>
    decreases xs
  {
    if xs == [] then m
    else Seen(m + Due(m, now, xs[0]), now + Elapses(m, now, xs[0]), xs[1..])
  }

  // The variables stand for the history.
  predicate Tells(s: State)
  {
    && (s.conn == match LatestLink(s.marks)
                  case Answer => DnsIpObtained
                  case Up => MqttConnected
                  case Down => MqttDisconnected
                  case Connect(_, _) => MqttConnecting
                  case _ => if s.marks == [] then StartUp else DhcpIpReceived)
    && s.subscribed == SubscribedSince(s.marks)
    && LatestAttempt(s.marks) <= s.now && s.last == LatestAttempt(s.marks) % WRAP
  }

  lemma TellsMore(m: seq<Mark>, x: Mark)
    ensures LatestLink(m + [x]) == if IsLink(x) then x else LatestLink(m)
    ensures LatestAttempt(m + [x]) == if x.Connect? then x.at else LatestAttempt(m)
    ensures SubscribedSince(m + [x]) == (x == Subscribe || (!Succeeded(x) && SubscribedSince(m)))
  {
    assert (m + [x])[..|m|] == m;
  }

  lemma LinkKinds(m: seq<Mark>)
    ensures LatestLink(m) == Ask || IsLink(LatestLink(m))
    decreases m
  {
    if m != [] && !IsLink(m[|m| - 1]) { LinkKinds(m[..|m| - 1]); }
  }

  lemma TellsKept(s: State, x: Step)
    requires Tells(s) && Enabled(s, x) && s.last < WRAP
    ensures var t := Next(s, x);
            && Tells(t) && t.last < WRAP
            && t.marks == s.marks + Due(s.marks, s.now, x) && t.now == s.now + Elapses(s.marks, s.now, x)
  {
    hide Tells, Next, Due, Elapses;
    if x.Switch? { SwitchTells(s, x); } else { EventTells(s, x); }
  }

  lemma SwitchTells(s: State, x: Step)
    requires Tells(s) && s.last < WRAP && x.Switch?
    ensures var t := Next(s, x);
            && Tells(t) && t.last < WRAP
            && t.marks == s.marks + Due(s.marks, s.now, x) && t.now == s.now + Elapses(s.marks, s.now, x)
  {
    hide LatestLink, LatestAttempt, SubscribedSince, Minus;
    LinkKinds(s.marks);
    NothingYet();
    WrappedGap(s.now, LatestAttempt(s.marks));
    var t := Next(s, x);
    if |t.marks| > |s.marks| { TellsMore(s.marks, t.marks[|s.marks|]); }
  }

  lemma EventTells(s: State, x: Step)
    requires Tells(s) && s.last < WRAP && Enabled(s, x) && !x.Switch?
    ensures var t := Next(s, x);
            && Tells(t) && t.last < WRAP
            && t.marks == s.marks + Due(s.marks, s.now, x) && t.now == s.now + Elapses(s.marks, s.now, x)
  {
    hide LatestLink, LatestAttempt, SubscribedSince;
    LinkKinds(s.marks);
    NothingYet();
    var t := Next(s, x);
    if |t.marks| > |s.marks| { TellsMore(s.marks, t.marks[|s.marks|]); }
  }

  lemma NothingYet()
    ensures LatestLink([]) == Ask && LatestAttempt([]) == 0 && !SubscribedSince([])
  {
  }

  lemma WrappedGap(a: nat, b: nat)
    requires b <= a
    ensures Minus(a % WRAP, b % WRAP) == (a - b) % WRAP
  {
    var qa, qb := a / WRAP, b / WRAP;
    assert a - b == WRAP * (qa - qb) + (a % WRAP - b % WRAP);
  }

  lemma {:induction false} SeenFrom(s: State, xs: seq<Step>)
    requires Tells(s) && s.last < WRAP && Legal(s, xs)
    ensures After(s, xs).marks == Seen(s.marks, s.now, xs)
    decreases xs
  {
    hide Tells, Next, Enabled, Due, Elapses;
    if xs != [] {
      TellsKept(s, xs[0]);
      SeenFrom(Next(s, xs[0]), xs[1..]);
    }
  }

  // Every run shows exactly the history its inputs call for.
  lemma SeenExactly(now: nat, xs: seq<Step>)
    requires Legal(INIT.(now := now), xs)
    ensures After(INIT.(now := now), xs).marks == Seen([], now, xs)
  {
    NothingYet();
    SeenFrom(INIT.(now := now), xs);
  }

  // The broker's name is asked for exactly if DHCP has supplied an address at some pass.
  lemma AskedExactly(now: nat, xs: seq<Step>)
    requires Legal(INIT.(now := now), xs)
    ensures Ask in After(INIT.(now := now), xs).marks <==> exists i :: 0 <= i < |xs| && xs[i].Switch? && xs[i].dhcp
  {
    AskedFrom(INIT.(now := now), xs);
  }

  lemma {:induction false} AskedFrom(s: State, xs: seq<Step>)
    requires s.conn == StartUp && s.marks == [] && s.last < WRAP && Legal(s, xs)
    ensures Ask in After(s, xs).marks <==> exists i :: 0 <= i < |xs| && xs[i].Switch? && xs[i].dhcp
    decreases xs
  {
    if xs != [] {
      var t := Next(s, xs[0]);
      if xs[0].Switch? && xs[0].dhcp {
        MarksGrow(t, xs[1..]);
        assert t.marks == [Ask] && After(t, xs[1..]).marks[0] == Ask;
        assert 0 < |xs| && xs[0].Switch? && xs[0].dhcp;
      } else {
        AskedFrom(t, xs[1..]);
        assert forall i | 0 < i < |xs| :: xs[i] == xs[1..][i - 1];
      }
    }
  }

  lemma {:induction false} MarksGrow(s: State, xs: seq<Step>)
    requires s.last < WRAP && Legal(s, xs)
    ensures s.marks <= After(s, xs).marks
    decreases xs
  {
    if xs != [] {
      OneMark(s, xs[0]);
      MarksGrow(Next(s, xs[0]), xs[1..]);
    }
  }

  // The address arrives exactly with an answer for the broker's name.
  lemma {:induction false} AnsweredExactly(m: seq<Mark>, now: nat, xs: seq<Step>)
    ensures Answer in Seen(m, now, xs) <==> Answer in m || DnsAnswer(true) in xs
    decreases xs
  {
    hide LatestLink, LatestAttempt, SubscribedSince, Elapses;
    if xs != [] {
      AnsweredExactly(m + Due(m, now, xs[0]), now + Elapses(m, now, xs[0]), xs[1..]);
      assert xs == [xs[0]] + xs[1..];
      assert Answer in Due(m, now, xs[0]) <==> xs[0] == DnsAnswer(true);
    }
  }

  // Between a successful attempt and the next attempt the connection has gone down.
  ghost predicate Turned(m: seq<Mark>)
  {
    forall i, j | 0 <= i < j < |m| && Succeeded(m[i]) && m[j].Connect? :: exists k :: i < k < j && m[k] == Down
  }

  lemma {:induction false} LatestLinkAt(m: seq<Mark>) returns (k: int)
    ensures if LatestLink(m) == Ask then k == -1 else 0 <= k < |m| && m[k] == LatestLink(m)
    ensures forall i | k < i < |m| :: !IsLink(m[i])
    decreases m
  {
    if m == [] {
      k := -1;
    } else if IsLink(m[|m| - 1]) {
      k := |m| - 1;
    } else {
      var n := m[..|m| - 1];
      k := LatestLinkAt(n);
      assert forall i | 0 <= i < |n| :: m[i] == n[i];
    }
  }

  lemma TurnedKept(s: State, x: Step)
    requires Tells(s) && Ordered(s.marks) && Turned(s.marks) && s.last < WRAP && Enabled(s, x)
    ensures Turned(Next(s, x).marks)
  {
    hide LatestLink, LatestAttempt, SubscribedSince;
    var m, u := s.marks, Next(s, x);
    OneMark(s, x);
    LinkKinds(m);
    var l := LatestLinkAt(m);
    if |u.marks| > |m| {
      forall i, j | 0 <= i < j < |u.marks| && Succeeded(u.marks[i]) && u.marks[j].Connect?
        ensures exists k :: i < k < j && u.marks[k] == Down
      {
        assert u.marks[i] == m[i];
        if j < |m| {
          assert u.marks[j] == m[j];
          var k :| i < k < j && m[k] == Down;
          assert u.marks[k] == Down;
        } else {
          assert m[l] == Down || l == 1;
          assert u.marks[l] == m[l];
        }
      }
    }
  }

  lemma {:induction false} TurnedFrom(s: State, xs: seq<Step>)
    requires Inv(s) && Tells(s) && Turned(s.marks) && s.last < WRAP && Legal(s, xs)
    ensures Turned(After(s, xs).marks)
    decreases xs
  {
    hide Tells, Next, Enabled, Turned, Ordered, Timed, Subscribed;
    if xs != [] {
      TurnedKept(s, xs[0]);
      TellsKept(s, xs[0]);
      InvKept(s, xs[0]);
      TurnedFrom(Next(s, xs[0]), xs[1..]);
    }
  }

  lemma TurnedAlways(now: nat, xs: seq<Step>)
    requires Legal(INIT.(now := now), xs)
    ensures Turned(After(INIT.(now := now), xs).marks)
  {
    hide After;
    NothingYet();
    InitialInv(now);
    TurnedFrom(INIT.(now := now), xs);
  }

  // ----- the program's own variables -----

  // What a pass asks of the network stack, and the mark it leaves.
  datatype Call = NoCall | GetHostByName | ClientConnect | MqttSubscribe

  function Made(call: Call, now: nat, ok: bool): seq<Mark>
  {
    match call
    case NoCall => []
    case GetHostByName => [Ask]
    case ClientConnect => [Connect(now, ok)]
    case MqttSubscribe => [Subscribe]
  }

  class Client {
    var myConn: Phase
    var bSubscribed: bool
    var lastReconnectAttempt: nat
    var millisec: nat                 // the clock as the program sees it
    var hung: bool                    // a callback spins; only the timer still runs
    ghost var state: State

    ghost predicate Valid()
      reads this
    {
      && Inv(state) && hung == state.hung && millisec == state.Now()
      && myConn == state.conn && bSubscribed == state.subscribed && lastReconnectAttempt == state.last
    }

    constructor ()
      ensures Valid() && state == INIT
    {
      myConn, bSubscribed, lastReconnectAttempt, millisec, hung, state := StartUp, false, 0, 0, false, INIT;
      InitialInv(0);
    }

    // The timer interrupt's part of the clock.
    method Tick()
      requires Valid()
      modifies this
      ensures Valid() && state == Next(old(state), Step.Tick)
    {
      InvKept(state, Step.Tick);
      TickTwice(state.now, 1);
      millisec := (millisec + TICK) % WRAP;
      state := Next(state, Step.Tick);
    }

    // The switch of the main loop. `between` timer interrupts strike between its two clock
    // reads; the network stack answers with dhcp and ok.
    method Pass(dhcp: bool, between: nat, ok: bool) returns (call: Call)
      requires Valid() && !hung
      modifies this
      ensures Valid() && state == Next(old(state), Switch(dhcp, between, ok))
      ensures state.marks == old(state).marks + Made(call, state.now, ok)
    {
      hide Inv;
      LastIsWord(state);
      ghost var next := Next(state, Switch(dhcp, between, ok));
      InvKept(state, Switch(dhcp, between, ok));
      TickTwice(state.now, between);
      call := NoCall;
      match myConn {
        case StartUp =>
          if dhcp { myConn, call := DhcpIpReceived, GetHostByName; }
        case DhcpIpReceived =>
        case MqttConnecting =>
        case MqttConnected =>
          if !bSubscribed { bSubscribed, call := true, MqttSubscribe; }
        case _ =>
          if Minus(millisec, lastReconnectAttempt) > RETRY {
            millisec := (millisec + TICK * between) % WRAP;
            lastReconnectAttempt, call := millisec, ClientConnect;
            if ok {
              myConn := MqttConnecting;
              bSubscribed := false;
            }
          }
      }
      state := next;
    }

    // ipObtained
    method IpObtained(ours: bool)
      requires Valid() && Enabled(state, DnsAnswer(ours))
      modifies this
      ensures Valid() && state == Next(old(state), DnsAnswer(ours))
    {
      InvKept(state, DnsAnswer(ours));
      state := Next(state, DnsAnswer(ours));
      if ours { myConn := DnsIpObtained; }
    }

    // myMqttClientCallBack. With any status but the first two it does not return.
    method MqttCallback(status: Status)
      requires Valid() && Enabled(state, Mqtt(status))
      modifies this
      ensures Valid() && state == Next(old(state), Mqtt(status))
      ensures hung == (status == Other)
    {
      InvKept(state, Mqtt(status));
      state := Next(state, Mqtt(status));
      match status {
        case Accepted => myConn := MqttConnected;
        case Disconnected => myConn := MqttDisconnected;
        case Other => hung := true;
      }
    }
  }

  // A run hangs exactly if a callback with an unknown status occurs in it, and nothing but the
  // clock moves from there on.
  lemma {:induction false} HungExactly(s: State, xs: seq<Step>)
    requires s.last < WRAP && !s.hung && Legal(s, xs)
    ensures After(s, xs).hung <==> Mqtt(Other) in xs
    ensures forall i | 0 <= i < |xs| && xs[i] == Mqtt(Other) :: forall j | i < j < |xs| :: xs[j] == Step.Tick
    decreases xs
  {
    if xs != [] {
      var t, ys := Next(s, xs[0]), xs[1..];
      if t.hung {
        OnlyTicks(t, ys);
      } else {
        HungExactly(t, ys);
        assert xs[0] != Mqtt(Other);
      }
      assert forall i | 0 < i < |xs| :: xs[i] == ys[i - 1];
    }
  }

  lemma {:induction false} OnlyTicks(s: State, xs: seq<Step>)
    requires s.last < WRAP && s.hung && Legal(s, xs)
    ensures After(s, xs).hung && forall i | 0 <= i < |xs| :: xs[i] == Step.Tick
    decreases xs
  {
    if xs != [] { OnlyTicks(Next(s, xs[0]), xs[1..]); }
  }

  lemma TickTwice(now: nat, n: nat)
    ensures (now + TICK * n) % WRAP == (now % WRAP + TICK * n) % WRAP
  {
    var q := now / WRAP;
    assert now + TICK * n == WRAP * q + (now % WRAP + TICK * n);
  }
}
