// examples/ping_pong.rs in its own form: handlers that push to mailboxes and raise the terminate flag,
// and a whole run of them.
module PingPongRun {
  import opened Vocabulary
  import opened PingPong

  class Match {
    const max: int
    var booted: nat
    var pingBox: seq<Envelope>
    var pongBox: seq<Envelope>
    var terminated: bool
    // history
    var pings: seq<int>
    var terminates: nat

    function State(): Game
      reads this
    {
      Game(max, booted, pingBox, pongBox, terminated, pings, terminates)
    }

    constructor (max: int)
      ensures State() == NewGame(max)
    {
      this.max := max;
      booted, pingBox, pongBox, terminated, pings, terminates := 0, [], [], false, [], 0;
    }

    method BootNext()
      requires booted < 2
      modifies this
      ensures State() == Apply(old(State()), Boot)
    {
      if booted == PONG_BOX {
        pongBox := pongBox + [Plain(Start)];
      } else {
        pingBox := pingBox + [Plain(Start)];
      }
      booted := booted + 1;
    }

    // process_message of PingActor: the first handler that fits the message runs.
    method PingActor()
      requires Enabled(State(), HandlePing)
      modifies this
      ensures State() == Apply(old(State()), HandlePing)
    {
      var msg := pingBox[0].msg;
      pingBox := pingBox[1..];
      match msg {
        case Start => SendPing(1);
        case App(2, count) =>
          if count >= max {
            terminated := true;
            terminates := terminates + 1;
          } else {
            SendPing(count + 1);
          }
        case _ =>
      }
    }

    method SendPing(count: int)
      modifies this
      ensures State() == PingPong.SendPing(old(State()), count)
    {
      pongBox := pongBox + [Envelope(Ping(count), Some(PING_REF), None)];
      pings := pings + [count];
    }

    // process_message of PongActor.
    method PongActor()
      requires Enabled(State(), HandlePong)
      modifies this
      ensures State() == Apply(old(State()), HandlePong)
    {
      var env := pongBox[0];
      pongBox := pongBox[1..];
      match env.msg {
        case App(1, count) =>
          match env.sender {
            case Some(Local(box, _)) =>
              if box == PING_BOX {
                pingBox := pingBox + [Envelope(Pong(count), Some(PONG_REF), None)];
              } else if box == PONG_BOX {
                pongBox := pongBox + [Envelope(Pong(count), Some(PONG_REF), None)];
              }
            case _ =>
          }
        case _ =>
      }
    }

    // init() and then the two threads, in any order that the caller's choices make: the run comes to
    // an end, with one call of terminate() after max(1, max_count) round trips.
    method Play(choices: seq<bool>) returns (ghost token: Phase)
      requires State() == NewGame(max)
      modifies this
      ensures terminated && terminates == 1
      ensures |pings| == (if max < 1 then 1 else max) && forall i | 0 <= i < |pings| :: pings[i] == i + 1
    {
      token := NotBooted;
      assert At(State(), token);
      token := StepMovesToken(State(), token, Boot);
      BootNext();
      token := StepMovesToken(State(), token, Boot);
      BootNext();
      var turn := 0;
      while !terminated
        invariant booted == 2 && Inv(State()) && At(State(), token) && (token.Over? <==> terminates == 1)
        decreases Potential(State(), token), |pingBox| + |pongBox|
      {
        var pingFirst := turn < |choices| && choices[turn];
        turn := turn + 1;
        SomeoneCanMove(State(), token);
        if pingBox != [] && (pingFirst || pongBox == []) {
          token := Turn(HandlePing, token);
        } else {
          token := Turn(HandlePong, token);
        }
      }
    }

    // One message of one of the two mailboxes.
    method Turn(step: Step, ghost token: Phase) returns (ghost token': Phase)
      requires Inv(State()) && At(State(), token) && (token.Over? <==> terminates == 1) && booted == 2
      requires Enabled(State(), step) && (step.HandlePing? || step.HandlePong?)
      modifies this
      ensures State() == Apply(old(State()), step) && booted == 2
      ensures Inv(State()) && At(State(), token') && (token'.Over? <==> terminates == 1)
      ensures Potential(State(), token') <= Potential(old(State()), token)
      ensures Potential(State(), token') == Potential(old(State()), token) ==>
                |pingBox| + |pongBox| < |old(pingBox)| + |old(pongBox)|
    {
      ghost var g := State();
      token' := StepMovesToken(g, token, step);
      if step.HandlePing? {
        PingActor();
      } else {
        PongActor();
      }
      if !MovesToken(g, step) {
        IdleTurnShrinks(g, step);
      }
    }
  }

  // A message that does not move the token is taken off its mailbox, and nothing is sent.
  lemma IdleTurnShrinks(g: Game, step: Step)
    requires Enabled(g, step) && (step.HandlePing? || step.HandlePong?) && !MovesToken(g, step)
    ensures var g' := Apply(g, step); |g'.pingBox| + |g'.pongBox| < |g.pingBox| + |g.pongBox|
  {
  }

  lemma SomeoneCanMove(g: Game, token: Phase)
    requires g.booted == 2 && !g.terminated && Inv(g) && At(g, token) && (token.Over? <==> g.terminates == 1)
    ensures g.pingBox != [] || g.pongBox != []
  {
  }
}
