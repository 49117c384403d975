// The whole run of examples/ping_pong.rs: two actors with their mailboxes, started by a Manager, under any
// interleaving with each other and with the Manager's messages.
module PingPong {
  import opened Vocabulary

  function Ping(count: int): Message { App(1, count) }

  function Pong(count: int): Message { App(2, count) }

  const PONG_BOX: nat := 0
  const PING_BOX: nat := 1
  const PING_REF: Ref := Local(PING_BOX, "PingActor")
  const PONG_REF: Ref := Local(PONG_BOX, "PongActor")

  // `pings` and `terminates` are history: the counts of the pings sent, and the calls of terminate().
  datatype Game = Game(
    max: int,
    booted: nat,
    pingBox: seq<Envelope>,
    pongBox: seq<Envelope>,
    terminated: bool,
    pings: seq<int>,
    terminates: nat)

  // Boot is init()'s next Start: first to PongActor, then to PingActor.  NotifyPing and NotifyPong are
  // the Shutdown messages of the Manager.
  datatype Step = Boot | HandlePing | HandlePong | NotifyPing | NotifyPong

  function NewGame(max: int): Game {
    Game(max, 0, [], [], false, [], 0)
  }

  predicate Enabled(g: Game, step: Step) {
    match step
    case Boot => g.booted < 2
    case HandlePing => g.pingBox != [] && g.booted > PING_BOX
    case HandlePong => g.pongBox != [] && g.booted > PONG_BOX
    case NotifyPing => true
    case NotifyPong => true
  }

  function Plain(msg: Message): Envelope {
    Envelope(msg, None, None)
  }

  // send() from PingActor to PongActor.
  function SendPing(g: Game, count: int): Game {
    g.(pongBox := g.pongBox + [Envelope(Ping(count), Some(PING_REF), None)], pings := g.pings + [count])
  }

  // reply() by PongActor, which goes to the mailbox of the envelope's sender.
  function ReplyPong(g: Game, to: Option<Ref>, count: int): Game {
    var env := Envelope(Pong(count), Some(PONG_REF), None);
    match to
    case Some(Local(box, _)) =>
      if box == PING_BOX then g.(pingBox := g.pingBox + [env])
      else if box == PONG_BOX then g.(pongBox := g.pongBox + [env])
      else g
    case _ => g
  }

  function PingStep(g: Game): Game
    requires Enabled(g, HandlePing)
  {
    var g' := g.(pingBox := g.pingBox[1..]);
    match g.pingBox[0].msg
    case Start => SendPing(g', 1)
    case App(2, count) =>
      if count >= g.max then g'.(terminated := true, terminates := g.terminates + 1)
      else SendPing(g', count + 1)
    case _ => g'
  }

  function PongStep(g: Game): Game
    requires Enabled(g, HandlePong)
  {
    var g' := g.(pongBox := g.pongBox[1..]);
    match g.pongBox[0].msg
    case App(1, count) => ReplyPong(g', g.pongBox[0].sender, count)
    case _ => g'
  }

  function Apply(g: Game, step: Step): Game
    requires Enabled(g, step)
  {
    match step
    case Boot =>
      if g.booted == PONG_BOX then g.(pongBox := g.pongBox + [Plain(Start)], booted := 1)
      else g.(pingBox := g.pingBox + [Plain(Start)], booted := 2)
    case HandlePing => PingStep(g)
    case HandlePong => PongStep(g)
    case NotifyPing => g.(pingBox := g.pingBox + [Plain(Shutdown)])
    case NotifyPong => g.(pongBox := g.pongBox + [Plain(Shutdown)])
  }

  function Exec(g: Game, steps: seq<Step>): Option<Game>
    decreases |steps|
  {
    if steps == [] then Some(g)
    else if !Enabled(g, steps[0]) then None
    else Exec(Apply(g, steps[0]), steps[1..])
  }

  // ----- the token

  // The messages of `box` that move the game: Start and Pong for PingActor, Ping for PongActor.
  function Live(box: seq<Envelope>, atPing: bool): seq<Envelope> {
    if box == [] then []
    else
      Live(box[..|box| - 1], atPing)
      + if Moves(box[|box| - 1].msg, atPing) then [box[|box| - 1]] else []
  }

  predicate Moves(m: Message, atPing: bool) {
    if atPing then m.Start? || (m.App? && m.typeId == 2) else m.App? && m.typeId == 1
  }

  datatype Phase = NotBooted | StartPending | PingOut | PongOut | Over

  function PingEnv(k: int): Envelope { Envelope(Ping(k), Some(PING_REF), None) }

  function PongEnv(k: int): Envelope { Envelope(Pong(k), Some(PONG_REF), None) }

  // Where the token is, given what moves the game.
  predicate At(g: Game, token: Phase) {
    var ping, pong, k := Live(g.pingBox, true), Live(g.pongBox, false), |g.pings|;
    match token
    case NotBooted => g.booted < 2 && ping == [] && pong == [] && k == 0
    case StartPending => g.booted == 2 && ping == [Plain(Start)] && pong == [] && k == 0
    case PingOut => g.booted == 2 && ping == [] && pong == [PingEnv(k)] && 1 <= k <= Rounds(g)
    case PongOut => g.booted == 2 && ping == [PongEnv(k)] && pong == [] && 1 <= k <= Rounds(g)
    case Over => g.booted == 2 && ping == [] && pong == [] && k == Rounds(g)
  }

  // The round trips of a game: at least one, even when max_count asks for none.
  function Rounds(g: Game): nat {
    if g.max < 1 then 1 else g.max
  }

  ghost predicate Inv(g: Game) {
    && (exists token :: At(g, token) && (token.Over? <==> g.terminates == 1) && g.terminates <= 1)
    && (g.terminated <==> g.terminates > 0)
    && forall i | 0 <= i < |g.pings| :: g.pings[i] == i + 1
  }

  lemma LiveSnoc(box: seq<Envelope>, env: Envelope, atPing: bool)
    ensures Live(box + [env], atPing) == Live(box, atPing) + if Moves(env.msg, atPing) then [env] else []
  {
    assert (box + [env])[..|box|] == box;
  }

  lemma {:induction false} LiveTail(box: seq<Envelope>, atPing: bool)
    requires box != []
    ensures Live(box, atPing) == (if Moves(box[0].msg, atPing) then [box[0]] else []) + Live(box[1..], atPing)
  {
    var n := |box| - 1;
    if n > 0 {
      LiveTail(box[..n], atPing);
      assert box[1..][..n - 1] == box[..n][1..];
    }
  }

  // What is left for the token to do: it goes down whenever the token moves, and only then.
  function Potential(g: Game, token: Phase): nat
    requires At(g, token)
  {
    var n := Rounds(g);
    match token
    case NotBooted => 2 * n + 2
    case StartPending => 2 * n + 1
    case PingOut => 2 * (n - |g.pings|) + 2
    case PongOut => 2 * (n - |g.pings|) + 1
    case Over => 0
  }

  // The step moves the token.
  predicate MovesToken(g: Game, step: Step) {
    match step
    case Boot => g.booted == 1
    case HandlePing => g.pingBox != [] && Moves(g.pingBox[0].msg, true)
    case HandlePong => g.pongBox != [] && Moves(g.pongBox[0].msg, false)
    case _ => false
  }

  // The head of the mailbox is the only message in it that moves the game.
  lemma HeadIsToken(box: seq<Envelope>, atPing: bool, env: Envelope)
    requires box != [] && Moves(box[0].msg, atPing) && |Live(box, atPing)| == 1
    ensures Live(box, atPing) == [box[0]] && Live(box[1..], atPing) == []
    ensures Live(box[1..] + [env], atPing) == if Moves(env.msg, atPing) then [env] else []
  {
    LiveTail(box, atPing);
    assert Live(box, atPing)[0] == box[0];
    LiveSnoc(box[1..], env, atPing);
  }

  lemma StartMoves(g: Game)
    requires At(g, StartPending) && Enabled(g, HandlePing) && MovesToken(g, HandlePing)
    ensures At(PingStep(g), PingOut) && PingStep(g).terminates == g.terminates
    ensures PingStep(g).pings == g.pings + [|g.pings| + 1]
  {
    hide Live;
    HeadIsToken(g.pingBox, true, Plain(Start));
    LiveSnoc(g.pongBox, PingEnv(1), false);
    assert [] + [PingEnv(1)] == [PingEnv(1)];
  }

  lemma PongArrives(g: Game)
    requires At(g, PongOut) && Enabled(g, HandlePing) && MovesToken(g, HandlePing)
    ensures var g' := PingStep(g);
            if |g.pings| < Rounds(g) then
              At(g', PingOut) && g'.terminates == g.terminates && g'.pings == g.pings + [|g.pings| + 1]
            else
              At(g', Over) && g'.terminates == g.terminates + 1 && g'.terminated && g'.pings == g.pings
  {
    hide Live;
    HeadIsToken(g.pingBox, true, Plain(Start));
    var k := |g.pings|;
    assert g.pingBox[0] == PongEnv(k);
    var g1 := g.(pingBox := g.pingBox[1..]);
    assert PingStep(g) == if k >= g.max then g1.(terminated := true, terminates := g.terminates + 1)
                          else SendPing(g1, k + 1);
    hide PingStep, MovesToken, Enabled;
    LiveSnoc(g.pongBox, PingEnv(k + 1), false);
    assert [] + [PingEnv(k + 1)] == [PingEnv(k + 1)];
  }

  lemma PongMoves(g: Game)
    requires At(g, PingOut) && Enabled(g, HandlePong) && MovesToken(g, HandlePong)
    ensures At(PongStep(g), PongOut)
    ensures PongStep(g).pings == g.pings && PongStep(g).terminates == g.terminates
  {
    hide Live;
    HeadIsToken(g.pongBox, false, Plain(Start));
    var k := |g.pings|;
    assert g.pongBox[0] == PingEnv(k);
    var g1 := g.(pongBox := g.pongBox[1..]);
    assert PongStep(g) == g1.(pingBox := g.pingBox + [PongEnv(k)]);
    hide PongStep, MovesToken, Enabled;
    LiveSnoc(g.pingBox, PongEnv(k), true);
    assert [] + [PongEnv(k)] == [PongEnv(k)];
  }

  lemma LastBoot(g: Game)
    requires At(g, NotBooted) && g.booted == 1
    ensures At(Apply(g, Boot), StartPending)
  {
    hide Live;
    LiveSnoc(g.pingBox, Plain(Start), true);
    assert [] + [Plain(Start)] == [Plain(Start)];
  }

  // A message that moves the game tells where the token is.
  lemma WhereFrom(g: Game, token: Phase, step: Step)
    requires At(g, token) && Enabled(g, step) && MovesToken(g, step)
    ensures match step
            case Boot => token.NotBooted?
            case HandlePing => token.StartPending? || token.PongOut?
            case HandlePong => token.PingOut?
            case _ => false
  {
    if step.HandlePing? {
      LiveTail(g.pingBox, true);
    } else if step.HandlePong? {
      LiveTail(g.pongBox, false);
    }
  }

  lemma OtherKeepsToken(g: Game, token: Phase, step: Step)
    requires At(g, token) && Enabled(g, step) && !MovesToken(g, step)
    ensures var g' := Apply(g, step);
            && At(g', token) && g'.pings == g.pings && g'.max == g.max
            && g'.terminates == g.terminates && g'.terminated == g.terminated
  {
    match step
    case Boot => LiveSnoc(g.pongBox, Plain(Start), false);
    case HandlePing => LiveTail(g.pingBox, true);
    case HandlePong => LiveTail(g.pongBox, false);
    case NotifyPing => LiveSnoc(g.pingBox, Plain(Shutdown), true);
    case NotifyPong => LiveSnoc(g.pongBox, Plain(Shutdown), false);
  }

  lemma TokenMoves(g: Game, token: Phase, step: Step) returns (token': Phase)
    requires Inv(g) && At(g, token) && (token.Over? <==> g.terminates == 1) && Enabled(g, step)
    requires MovesToken(g, step)
    ensures var g' := Apply(g, step);
            && At(g', token') && Potential(g', token') < Potential(g, token)
            && (token'.Over? <==> g'.terminates == 1) && g'.terminates <= 1
            && (g'.terminated <==> g'.terminates > 0)
            && (g'.pings == g.pings || g'.pings == g.pings + [|g.pings| + 1])
  {
    WhereFrom(g, token, step);
    match token
    case NotBooted =>
      LastBoot(g);
      token' := StartPending;
    case StartPending =>
      StartMoves(g);
      token' := PingOut;
    case PongOut =>
      PongArrives(g);
      token' := if |g.pings| < Rounds(g) then PingOut else Over;
    case PingOut =>
      PongMoves(g);
      token' := PongOut;
  }

  lemma StepMovesToken(g: Game, token: Phase, step: Step) returns (token': Phase)
    requires Inv(g) && At(g, token) && (token.Over? <==> g.terminates == 1) && Enabled(g, step)
    ensures var g' := Apply(g, step);
            && Inv(g') && At(g', token') && (token'.Over? <==> g'.terminates == 1)
            && (if MovesToken(g, step) then Potential(g', token') < Potential(g, token)
                else Potential(g', token') == Potential(g, token))
  {
    hide At, Live, PingStep, PongStep;
    if MovesToken(g, step) {
      token' := TokenMoves(g, token, step);
    } else {
      OtherKeepsToken(g, token, step);
      token' := token;
    }
  }

  function TokenMovesIn(g: Game, steps: seq<Step>): nat
    decreases |steps|
  {
    if steps == [] || !Enabled(g, steps[0]) then 0
    else (if MovesToken(g, steps[0]) then 1 else 0) + TokenMovesIn(Apply(g, steps[0]), steps[1..])
  }

  lemma {:induction false} Follow(g: Game, steps: seq<Step>, g': Game, token: Phase) returns (token': Phase)
    requires Inv(g) && At(g, token) && (token.Over? <==> g.terminates == 1)
    requires Exec(g, steps) == Some(g')
    ensures Inv(g') && At(g', token') && (token'.Over? <==> g'.terminates == 1)
    ensures TokenMovesIn(g, steps) + Potential(g', token') <= Potential(g, token)
    decreases |steps|
  {
    hide At, Live, Apply, Enabled, MovesToken, Potential, Inv;
    if steps == [] {
      token' := token;
    } else {
      var token1 := StepMovesToken(g, token, steps[0]);
      token' := Follow(Apply(g, steps[0]), steps[1..], g', token1);
    }
  }

  // In every reachable state there is exactly one token: Start pending, one Ping, one Pong, or the end.
  // The pings so far carry 1, 2, 3, ...; the token moves at most twice per round trip and twice more;
  // and terminate() has been called, once, just when max(1, max_count) round trips are over.
  lemma WholeRun(max: int, steps: seq<Step>, g: Game) returns (token: Phase)
    requires Exec(NewGame(max), steps) == Some(g)
    ensures At(g, token) && forall other | At(g, other) :: other == token
    ensures forall i | 0 <= i < |g.pings| :: g.pings[i] == i + 1
    ensures TokenMovesIn(NewGame(max), steps) <= 2 * Rounds(NewGame(max)) + 2
    ensures g.terminated <==> g.terminates == 1
    ensures g.terminates == 1 <==> token.Over?
    ensures token.Over? ==> |g.pings| == Rounds(g)
  {
    assert At(NewGame(max), NotBooted);
    token := Follow(NewGame(max), steps, g, NotBooted);
  }

  // Until the game is over the token can always move: terminate() is not missed.
  lemma TokenCanMove(max: int, steps: seq<Step>, g: Game) returns (step: Step)
    requires Exec(NewGame(max), steps) == Some(g) && !g.terminated
    ensures Enabled(g, step) && (step.Boot? || step.HandlePing? || step.HandlePong?)
  {
    var token := WholeRun(max, steps, g);
    step := if token.NotBooted? then Boot else if token.PingOut? then HandlePong else HandlePing;
  }
}
