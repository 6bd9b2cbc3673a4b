/** The settings of both ends. The two ends share the selective-repeat flag. */
module Settings {
  datatype Config = Config(
    selectiveRepeat: bool,
    fastRetransmit: bool,
    sendWindow: nat,
    recvWindow: nat,
    maxRetry: nat,
    timeout: int)
  {
    predicate Valid() {
      sendWindow >= 1 && recvWindow >= 1
    }
  }
}

/** What one critical section of each sender thread does, over unbounded numbers (sender.cpp). */
module SenderModel {
  import opened Options
  import opened Packets
  import opened Settings
  import opened TimerModel

  datatype SenderState = Idle | Connecting | Connected | Pushing | Sending | Stopping | Disconnecting

  datatype Sender = Sender(
    pending: set<nat>,
    pool: map<nat, Packet>,
    retry: map<nat, nat>,
    acked: set<nat>,
    lower: nat,
    upper: nat,
    dups: nat,
    state: SenderState,
    running: bool,
    timer: Timer<nat>)

  /** Sender::init */
  const START: Sender :=
    Sender({}, map[], map[], {}, 0, 0, 0, Idle, true, Timer(map[], {}))

  // ---- send_handler ----

  /** The two tests that make send_handler clean a number up instead of sending it. */
  predicate Settled(c: Config, s: Sender, n: nat) {
    (c.selectiveRepeat && n in s.acked) || n < s.lower
  }

  function CleanUp(s: Sender, n: nat): Sender {
    s.(retry := s.retry - {n}, pool := s.pool - {n}, timer := s.timer.Remove(n))
  }

  predicate LimitReached(c: Config, s: Sender, n: nat) {
    n in s.retry && s.retry[n] >= c.maxRetry
  }

  function GiveUp(s: Sender): Sender {
    match s.state
    case Stopping => s.(state := Connected)
    case Pushing => s.(state := Connected)
    case Connecting => s.(state := Idle)
    case Disconnecting => s.(state := Idle)
    case _ => s.(running := false)
  }

  function CountTry(s: Sender, n: nat): Sender {
    s.(retry := s.retry[n := if n in s.retry then s.retry[n] + 1 else 0])
  }

  /** A popped number reaches the retry limit instead of the wire. */
  predicate Abandons(c: Config, s: Sender, n: nat) {
    !Settled(c, s, n) && s.lower != s.upper && LimitReached(c, s, n)
  }

  /** A popped number is put on the wire. */
  predicate Transmits(c: Config, s: Sender, n: nat) {
    !Settled(c, s, n) && s.lower != s.upper && !LimitReached(c, s, n) && n in s.pool
  }

  /** One iteration of send_handler after its pop. */
  function ProcessPopped(c: Config, s: Sender, n: nat, now: int): Sender {
    if Settled(c, s, n) then CleanUp(s, n)
    else if s.lower == s.upper then s
    else if LimitReached(c, s, n) then GiveUp(s)
    else if n in s.pool then
      CountTry(s, n).(timer := s.timer.Register(n, now + c.timeout))
    else
      CountTry(s, n).(timer := s.timer.Remove(n))
  }

  // ---- recv_handler ----

  /** The state that an ack of this kind moves the sender to, by kind alone. */
  function Target(state: SenderState, kind: PacketKind): Option<SenderState> {
    match (state, kind)
    case (Connecting, ConnAck) => Some(Connected)
    case (Pushing, DataPushAck) => Some(Sending)
    case (Stopping, DataStopAck) => Some(Connected)
    case (Disconnecting, DisconnAck) => Some(Idle)
    case _ => None
  }

  /** The numbers that the fast-retransmit loop pushes. */
  function Range(lower: nat, upper: nat): (r: set<nat>)
    ensures forall n: nat :: n in r <==> lower <= n < upper
    decreases upper - lower
  {
    if lower < upper then {lower} + Range(lower + 1, upper) else {}
  }

  /** The duplicate-ack counter after one more duplicate. */
  function NextDups(sendWindow: nat, dups: nat): nat {
    if dups == 0 || dups == 2 then dups + 1
    else if dups >= sendWindow then 1
    else dups + 1
  }

  predicate Retransmits(c: Config, s: Sender, n: nat) {
    !c.selectiveRepeat && n == s.lower && s.dups == 2 && c.fastRetransmit
  }

  /** Go-Back-N: the ack names the next number the receiver expects. */
  function CumulativeAck(c: Config, s: Sender, n: nat): Sender {
    var s1 := s.(acked := s.acked - {n});
    if s.lower == n then
      s1.(pending := if Retransmits(c, s, n) then s.pending + Range(s.lower, s.upper) else s.pending,
          dups := NextDups(c.sendWindow, s.dups))
    else if s.lower < n then
      s1.(dups := 0, lower := n)
    else
      s1
  }

  /** Selective Repeat: the window slides over every acked number at its lower end. */
  function SlideLower(s: Sender): (r: Sender)
    ensures r.lower >= s.lower && r.acked <= s.acked && r.lower !in r.acked
    ensures r == s.(lower := r.lower, acked := r.acked)
    ensures forall n :: n in s.acked && n !in r.acked ==> s.lower <= n < r.lower
    decreases |s.acked|
  {
    if s.lower in s.acked then
      SlideLower(s.(acked := s.acked - {s.lower}, lower := s.lower + 1))
    else
      s
  }

  /** A number that is not acked stops the slide. */
  lemma {:induction false} SlideStops(s: Sender, n: nat)
    requires s.lower <= n && n !in s.acked
    ensures SlideLower(s).lower <= n
    decreases |s.acked|
  {
    if s.lower in s.acked {
      SlideStops(s.(acked := s.acked - {s.lower}, lower := s.lower + 1), n);
    }
  }

  /** The ack step of recv_handler. */
  function Acknowledge(c: Config, s: Sender, n: nat): Sender {
    if c.selectiveRepeat then SlideLower(s.(acked := s.acked + {n}))
    else CumulativeAck(c, s, n)
  }

  // ---- timeout_handler and send_packet ----

  function Repend(s: Sender): Sender {
    s.(pending := s.pending + s.timer.timedOut, timer := s.timer.Clear())
  }

  predicate Available(c: Config, s: Sender) {
    s.upper - s.lower < c.sendWindow
  }

  function InsertPacket(s: Sender, p: Packet): Sender {
    s.(pool := if p.number in s.pool then s.pool else s.pool[p.number := p],
       pending := s.pending + {p.number})
  }
}
