/** The venue behind the client: it holds the positions, answers as it likes, and shares the account with its owner.
    An order whose outcome is unknown may have run; a position may be missing from an answer and show up later. */
module Venues {
  import opened Trades

  datatype OrderArgs = OrderArgs(range: bool, side: Side, volume: nat, relativeSl: nat, relativeTp: nat, comment: Key)

  datatype Fill = Fill(pid: Option<Pid>, price: Option<real>)

  datatype Deal = Deal(price: Option<real>, volume: nat, closing: bool)

  /** How one attempt of the session owner ends. */
  datatype Answer =
    | LostSession              // "Session not found": refused before any tool ran
    | Refused(orderType: bool)
    | Unauthorised
    | Broken                   // timeout, network, cancelled
    | Crashed
    | Done(tellsPid: bool)

  /** What went over the connection, in order. */
  datatype Message =
    | Ordered(args: OrderArgs, ending: Answer)  // one attempt
    | Commanded(pid: Pid, cmd: Command)
    | Shown(answer: Outcome<seq<Position>>)
    | Dealt(pid: Pid, deals: Outcome<seq<Deal>>)

  const SESSION_RETRIES := 8

  /** What the caller of create_order is told of the last attempt. */
  predicate Reads(a: Answer, r: Outcome<Fill>) {
    match a
    case LostSession => r == Failure(AuthError) || r == Failure(TransportError)
    case Refused(orderType) => r == Failure(ToolError(orderType))
    case Unauthorised => r == Failure(AuthError)
    case Broken => r == Failure(TransportError)
    case Crashed => r == Failure(Fault)
    case Done(_) => r.Success?
  }

  /** One call: the request went out again only after the server had refused it unrun, eight times at most. Either the
      last attempt is the one answered, or the call failed with nothing run: before anything went out, while the
      symbols were loaded or the session was opened, or after the last refusal. */
  ghost predicate Attempts(before: seq<Message>, log: seq<Message>, args: OrderArgs, r: Outcome<Fill>) {
    && before <= log && |log| <= |before| + 1 + SESSION_RETRIES
    && (forall j :: |before| <= j < |log| - 1 ==> log[j] == Ordered(args, LostSession))
    && if |log| == |before| || log[|log| - 1] == Ordered(args, LostSession) then r.Failure?
       else
         var last := log[|log| - 1];
         last.Ordered? && last.args == args && Reads(last.ending, r)
  }

  predicate IsSnapshot(snap: seq<Position>, open: map<Pid, Position>) {
    && (forall i :: 0 <= i < |snap| ==> snap[i].pid in open && open[snap[i].pid] == snap[i])
    && (forall i, j :: 0 <= i < j < |snap| ==> snap[i].pid != snap[j].pid)
  }

  class Venue {
    var open: map<Pid, Position>
    var labelled: map<Pid, Key>  // every MAPEX-labelled position ever opened, with its comment
    var ours: set<Pid>           // those opened by create_order
    var nextId: Pid
    const digits: string -> int  // the venue's own scale for the relative points of a symbol
    ghost var log: seq<Message>

    static predicate Coherent(open: map<Pid, Position>, labelled: map<Pid, Key>, nextId: Pid) {
      && (forall p :: p in labelled ==> p < nextId)
      && (forall p :: p in open ==>
            && p < nextId && open[p].pid == p && (open[p].mapex <==> p in labelled)
            && (p in labelled ==> labelled[p] == open[p].comment))
    }

    ghost predicate Valid()
      reads this
    {
      Coherent(open, labelled, nextId) && ours <= labelled.Keys
    }

    constructor (digits: string -> int)
      ensures Valid() && labelled == map[] && ours == {} && log == [] && this.digits == digits
    {
      open, labelled, ours, nextId, log := map[], map[], {}, 0, [];
      this.digits := digits;
    }

    /** Anything the owner, another terminal or the market does: positions open, change and vanish. A label and a
        comment never change, ids are never reused. */
    method Drift()
      requires Valid()
      modifies this`open, this`labelled, this`nextId
      ensures Valid() && Extends(old(labelled), labelled) && old(nextId) <= nextId
    {
      var o: map<Pid, Position> := *;
      var l: map<Pid, Key> := *;
      var n: Pid := *;
      if nextId <= n && Coherent(o, l, n)
         && (forall p :: p in labelled ==> p in l && l[p] == labelled[p])
         && (forall p :: p in l ==> p in labelled || nextId <= p) {
        open, labelled, nextId := o, l, n;
      }
    }

    /** The broker runs a market order. */
    method Run(symbol: string, args: OrderArgs) returns (p: Pid)
      requires Valid()
      modifies this`open, this`labelled, this`ours, this`nextId
      ensures Valid() && p == old(nextId) && p !in old(labelled) && nextId == p + 1
      ensures labelled == old(labelled)[p := args.comment] && ours == old(ours) + {p}
    {
      p := nextId;
      var entry: Option<real>, sl: Option<real>, tp: Option<real>, volume: nat := *, *, *, *;  // partial fills too
      open := open[p := Position(p, symbol, args.side, volume, entry, sl, tp, true, args.comment)];
      labelled := labelled[p := args.comment];
      ours := ours + {p};
      nextId := p + 1;
    }

    /** One attempt of the session owner. A lost session and a refused order type mean that no tool ran. */
    method Attempt(symbol: string, args: OrderArgs) returns (answer: Answer, told: Option<Pid>,
                                                             ghost filled: Option<Pid>)
      requires Valid()
      modifies this
      ensures Valid() && Extends(old(labelled), labelled) && log == old(log) + [Ordered(args, answer)]
      ensures filled.None? ==> ours == old(ours)
      ensures filled.Some? ==> var p := filled.value;
                p !in old(labelled) && p in labelled && labelled[p] == args.comment && ours == old(ours) + {p}
      ensures answer.LostSession? || answer == Refused(true) ==> filled.None?
      ensures told.Some? ==> filled == told
    {
      Drift();
      answer := *;
      told, filled := None, None;
      var ran: bool := *;
      if ran && !answer.LostSession? && answer != Refused(true) {
        var p := Run(symbol, args);
        filled := Some(p);
        told := if answer == Done(true) then Some(p) else None;
        Drift();
      }
      log := log + [Ordered(args, answer)];
    }

    /** `create_order` through the session owner: after a lost session a new one is opened and the request goes out
        again, because the server refused it before any tool ran; whatever else happens, it goes out only once. */
    method CreateOrder(symbol: string, args: OrderArgs) returns (r: Outcome<Fill>, ghost filled: Option<Pid>)
      requires Valid()
      modifies this
      ensures Valid() && Extends(old(labelled), labelled) && Attempts(old(log), log, args, r)
      ensures filled.None? ==> ours == old(ours)
      ensures filled.Some? ==> var p := filled.value;
                p !in old(labelled) && p in labelled && labelled[p] == args.comment && ours == old(ours) + {p}
      ensures r == Failure(ToolError(true)) ==> filled.None?
      ensures r.Success? && r.value.pid.Some? ==> filled == r.value.pid
    {
      filled := None;
      var attempt := 0;
      while true
        invariant 0 <= attempt <= SESSION_RETRIES
        invariant Valid() && Extends(old(labelled), labelled) && filled.None? && ours == old(ours)
        invariant old(log) <= log && |log| == |old(log)| + attempt
        invariant forall j :: |old(log)| <= j < |log| ==> log[j] == Ordered(args, LostSession)
        decreases SESSION_RETRIES - attempt
      {
        var unreached: Option<Exn> := *;  // no session, or no such tool or symbol: nothing goes out
        if unreached.Some? {
          return Failure(unreached.value), None;
        }
        var answer, told;
        answer, told, filled := Attempt(symbol, args);
        if answer.LostSession? && attempt < SESSION_RETRIES {
          attempt := attempt + 1;
          continue;
        }
        var price: Option<real> := *;
        var auth: bool := *;  // "session expired" reads as an authorisation failure
        r := match answer
             case LostSession => Failure(if auth then AuthError else TransportError)
             case Refused(orderType) => Failure(ToolError(orderType))
             case Unauthorised => Failure(AuthError)
             case Broken => Failure(TransportError)
             case Crashed => Failure(Fault)
             case Done(_) => Success(Fill(told, price));
        return;
      }
    }

    /** amend_position and close_position: run or not, answered or not. Their effect is among what Drift allows. */
    method Mutate(pid: Pid, ghost cmd: Command) returns (r: Outcome<()>)
      requires Valid()
      modifies this
      ensures Valid() && Extends(old(labelled), labelled) && ours == old(ours)
      ensures log == old(log) + [Commanded(pid, cmd)]
    {
      Drift();
      log := log + [Commanded(pid, cmd)];
      var answer: Outcome<()> := *;
      return answer;
    }

    /** get_positions: some of the positions held, in any order. */
    method Positions() returns (r: Outcome<seq<Position>>)
      requires Valid()
      modifies this
      ensures Valid() && Extends(old(labelled), labelled) && ours == old(ours)
      ensures log == old(log) + [Shown(r)]
      ensures r.Success? ==> IsSnapshot(r.value, open)
    {
      Drift();
      r := *;
      if r.Success? && !IsSnapshot(r.value, open) {
        r := Success([]);
      }
      log := log + [Shown(r)];
    }

    method DealsFor(pid: Pid) returns (r: Outcome<seq<Deal>>)
      requires Valid()
      modifies this
      ensures Valid() && Extends(old(labelled), labelled) && ours == old(ours)
      ensures log == old(log) + [Dealt(pid, r)]
    {
      Drift();
      r := *;
      log := log + [Dealt(pid, r)];
    }
  }
}
