// A program small enough to run by hand, for the examples of what can go wrong: one boundary with one
// seed, callbacks that all accept, and a request that replays the seeded event.
module Examples {
  import opened Domain
  import opened Json
  import opened Runtime
  import opened Wrappers

  /** A boundary "b" whose one seed makes the aggregate "x" by an event of a given kind. */
  function SeededBoundary(kind: string, reducers: seq<Reducer>): Boundary {
    Boundary("b", [], [], reducers, [], false, false, [], [Seed(Some("x"), Some(kind), None, [])],
             (req: Request) => Ok("x"), None, (state: Object) => Ok(()))
  }

  function SeededEvent(kind: string): Event {
    Baseline("b", Seed(Some("x"), Some(kind), None, []), 0)
  }

  function Accepting(boundary: Boundary): Program {
    Program([boundary], [], [], [], None,
            (l: string, r: string) => true, (b: string, kind: string, payload: Object) => Ok(()),
            (operation: string) => false, (req: Request) => "",
            (req: Request, state: Option<Object>) => Proceed,
            (req: Request) => Ok(Response(404, Null)),
            (req: Request, state: Option<Object>) => Ok(Response(200, Null)),
            (req: Request, states: map<Id, Object>, owners: map<Id, string>) => Ok(Response(200, Null)),
            (requests: seq<Request>) => Ok(()),
            (commit: CommitContext) => Ok(()), (commit: CommitContext) => Ok(()), (commit: CommitContext) => Ok(()))
  }

  /** Replay the seeded event, perhaps under a key header. */
  function ReplaySeed(kind: string, header: Option<string>): Request {
    Request(Command("c", "b", Query, None, [], "replay", "", None, Inbound, 0), None, header,
            SideEffects(false, false, false, false, false),
            Controls(false, None, Some(SeededEvent(kind).id), None, None, 0),
            Supply((scope: nat, purpose: Purpose, draw: nat) => "id", (scope: nat, draw: nat) => "now"), 0)
  }
}
