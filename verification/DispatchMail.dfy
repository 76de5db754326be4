/**
 The message bus within the thread pool (gcos/ipc/message_bus.py and the piping
 steps of gcos/kernel/worker_pool.py): mailboxes stay bounded, and what a waiting
 consumer can receive is only ever the result of a producer that is DONE.
 */
module DispatchMail {
  import opened MessageBuses
  import opened Dispatch
  import opened DispatchTheorems

  /** Boxes are within the bound and hold only forwarded results. */
  predicate MailOk(cap: int, mail: map<Pid, seq<Pid>>, piped: set<Pid>) {
    forall a :: a in mail ==> (cap > 0 ==> |mail[a]| <= cap) && forall i :: 0 <= i < |mail[a]| ==> mail[a][i] in piped
  }

  lemma {:induction false} BoxChange(
      cap: int, mail: map<Pid, seq<Pid>>, piped: set<Pid>, piped': set<Pid>, a: Pid, box: seq<Pid>)
    requires MailOk(cap, mail, piped) && piped <= piped'
    requires (cap > 0 ==> |box| <= cap) && forall i :: 0 <= i < |box| ==> box[i] in piped'
    ensures MailOk(cap, mail[a := box], piped')
  {
  }

  lemma {:induction false} SendKeepsMail(c: Config, s: State, w: nat)
    requires Holds(s, w) && s.workers[w].Sending? && MailOk(c.mailboxCap, s.mail, s.piped)
    ensures MailOk(c.mailboxCap, DoSend(c, s, w).mail, DoSend(c, s, w).piped)
  {
    var a := s.workers[w].a;
    var to := s.agents[a].pipeTo;
    if to.Some? && HasRoom(c.mailboxCap, |Mailbox(s, to.value)|) {
      BoxChange(c.mailboxCap, s.mail, s.piped, s.piped + {a}, to.value, Mailbox(s, to.value) + [a]);
    }
  }

  lemma {:induction false} ReceiveKeepsMail(c: Config, s: State, w: nat, still: bool)
    requires Holds(s, w) && MailOk(c.mailboxCap, s.mail, s.piped)
    ensures var t := DoReceive(c, s, w, still); MailOk(c.mailboxCap, t.mail, t.piped)
  {
    var a := Owner(s.workers[w]);
    if Mailbox(s, a) != [] {
      BoxChange(c.mailboxCap, s.mail, s.piped, s.piped, a, Mailbox(s, a)[1..]);
    }
  }

  predicate Early(m: Act) {
    || m.Inspect? || m.Park? || m.Requeue? || m.Loop? || m.Acquire? || m.MarkBlocked? || m.Wake?
    || m.Resume? || m.GiveBack? || m.Enter? || m.Mark?
  }

  lemma {:induction false} EarlyActsKeepMail(c: Config, s: State, w: nat, m: Act)
    requires Holds(s, w) && CanDo(s, s.workers[w], m) && Early(m)
    ensures var t := Perform(c, s, w, m); t.mail == s.mail && t.piped == s.piped
  {
  }

  lemma {:induction false} LateActsKeepMail(c: Config, s: State, w: nat, m: Act)
    requires Holds(s, w) && CanDo(s, s.workers[w], m) && !Early(m) && !m.Send? && !m.Receive?
    ensures var t := Perform(c, s, w, m); t.mail == s.mail && t.piped == s.piped
  {
  }

  lemma {:induction false} StepKeepsMail(c: Config, s: State, l: Label)
    requires Enabled(s, l) && MailOk(c.mailboxCap, s.mail, s.piped)
    ensures var t := Apply(c, s, l); MailOk(c.mailboxCap, t.mail, t.piped)
  {
    if l.By? {
      if l.act.Send? {
        SendKeepsMail(c, s, l.w);
      } else if l.act.Receive? {
        ReceiveKeepsMail(c, s, l.w, l.act.stillNeedsInput);
      } else if Early(l.act) {
        EarlyActsKeepMail(c, s, l.w, l.act);
      } else if !l.act.Pop? && !l.act.TaskDone? {
        LateActsKeepMail(c, s, l.w, l.act);
      }
    }
  }

  lemma {:induction false} RunKeepsMail(c: Config, s: State, ls: seq<Label>, t: State)
    requires Runs(c, s, ls, t) && MailOk(c.mailboxCap, s.mail, s.piped)
    ensures MailOk(c.mailboxCap, t.mail, t.piped)
    decreases |ls|
  {
    if ls != [] {
      StepKeepsMail(c, s, ls[0]);
      RunKeepsMail(c, Apply(c, s, ls[0]), ls[1..], t);
    }
  }

  /** In every reachable state a mailbox is within its bound, and every message in it is from a DONE agent. */
  lemma {:induction false} MailComesFromDoneAgents(c: Config, s: State, a: Pid, i: nat)
    requires Reachable(c, s)
    ensures c.mailboxCap > 0 ==> |Mailbox(s, a)| <= c.mailboxCap
    ensures i < |Mailbox(s, a)| ==> Mailbox(s, a)[i] < |s.agents| && StatusOf(s, Mailbox(s, a)[i]).Done?
  {
    var init, ls :| Initial(init) && Runs(c, init, ls, s);
    RunKeepsMail(c, init, ls, s);
    if i < |Mailbox(s, a)| {
      OnlyDoneAgentsPipe(c, s, Mailbox(s, a)[i]);
    }
  }
}
