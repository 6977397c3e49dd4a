/** The critical sections of the attach lifecycle (internal/server/attach.go): each function is
    what one hold of the dispatcher's mutex does to the three fields it guards. */
module AttachCore {
  import opened Base

  /** One live feed. `id` stands for the identity of the Go pointer: two attachments are the
      same object exactly when their ids agree. */
  datatype Attachment<F> = Attachment(id: nat, feed: F, udid: string)

  /** The fields guarded by the mutex; an empty `pending` means no attach is in flight. */
  datatype Core<F> = Core(gen: nat, att: Option<Attachment<F>>, pending: string)

  /** What a claim hands back: the new fields, the generation taken, the device that was being
      served and the attachment now in the claimant's hands. */
  datatype Grant<F> = Grant(core: Core<F>, gen: nat, prev: string, removed: Option<Attachment<F>>)

  function Claim<F>(c: Core<F>, next: string): Grant<F> {
    Grant(Core(c.gen + 1, None, next),
          c.gen + 1,
          if c.att.Some? then c.att.value.udid else c.pending,
          c.att)
  }

  /** Claim a replacement of the live feed's own device; nothing at all when none is live. */
  function Restart<F>(c: Core<F>): Option<Grant<F>> {
    if c.att.None? then None else Some(Claim(c, c.att.value.udid))
  }

  /** Install a spawned feed, unless a newer intent took the generation. */
  function Install<F>(c: Core<F>, gen: nat, att: Attachment<F>): Option<Core<F>> {
    if c.gen != gen then None else Some(c.(att := Some(att), pending := ""))
  }

  /** Give up the generation after a failure, unless a newer intent took it. */
  function Fail<F>(c: Core<F>, gen: nat): Option<Core<F>> {
    if c.gen != gen then None else Some(c.(pending := ""))
  }

  /** The pump's section: empty the slot only if it still holds the pump's own attachment. */
  function Release<F>(c: Core<F>, id: nat): Option<Core<F>> {
    if c.att.Some? && c.att.value.id == id then Some(c.(att := None)) else None
  }

  predicate Streaming<F>(c: Core<F>, udid: string) {
    (c.att.Some? && c.att.value.udid == udid) || c.pending == udid
  }

  class Feed {
    var closes: nat

    constructor ()
      ensures closes == 0
    {
      closes := 0;
    }

    method Close()
      modifies this
      ensures closes == old(closes) + 1
    {
      closes := closes + 1;
    }
  }

  /** The dispatcher as one thread sees it when nothing interleaves: each method runs its
      section on the fields and then does the work the code does after unlocking. */
  class Dispatcher {
    var gen: nat
    var att: Option<Attachment<Feed>>
    var pending: string

    ghost function View(): Core<Feed>
      reads this
    {
      Core(gen, att, pending)
    }

    constructor ()
      ensures View() == Core(0, None, "")
    {
      gen, att, pending := 0, None, "";
    }

    method ClaimAttach(next: string) returns (claimed: nat, prev: string)
      modifies this, if att.Some? then {att.value.feed} else {}
      ensures View() == Claim(old(View()), next).core
      ensures claimed == Claim(old(View()), next).gen && prev == Claim(old(View()), next).prev
      ensures old(att).Some? ==> old(att).value.feed.closes == old(att.value.feed.closes) + 1
    {
      gen := gen + 1;
      claimed := gen;
      var removed := att;
      prev := pending;
      if removed.Some? {
        prev := removed.value.udid;
      }
      att := None;
      pending := next;
      if removed.Some? {
        removed.value.feed.Close();
      }
    }

    method StopAttachment() returns (prev: string)
      modifies this, if att.Some? then {att.value.feed} else {}
      ensures View() == Claim(old(View()), "").core
      ensures prev == Claim(old(View()), "").prev
      ensures old(att).Some? ==> old(att).value.feed.closes == old(att.value.feed.closes) + 1
    {
      var _, p := ClaimAttach("");
      prev := p;
    }

    method RestartAttachment() returns (udid: string, claimed: nat, ok: bool)
      modifies this, if att.Some? then {att.value.feed} else {}
      ensures ok == Restart(old(View())).Some?
      ensures !ok ==> View() == old(View()) && udid == "" && claimed == 0
      ensures ok ==> View() == Restart(old(View())).value.core
                     && claimed == Restart(old(View())).value.gen
                     && udid == Restart(old(View())).value.prev == pending
                     && old(att).value.feed.closes == old(att.value.feed.closes) + 1
    {
      if att.None? {
        return "", 0, false;
      }
      var removed := att.value;
      udid := removed.udid;
      gen := gen + 1;
      claimed := gen;
      att := None;
      pending := udid;
      removed.feed.Close();
      ok := true;
    }

    /** The section of attachAs and what follows it: a superseded attempt closes its own feed. */
    method InstallFeed(claimed: nat, id: nat, feed: Feed, udid: string) returns (installed: bool)
      modifies this, feed
      ensures installed == Install(old(View()), claimed, Attachment(id, feed, udid)).Some?
      ensures installed ==> View() == Install(old(View()), claimed, Attachment(id, feed, udid)).value
                            && feed.closes == old(feed.closes)
      ensures !installed ==> View() == old(View()) && feed.closes == old(feed.closes) + 1
    {
      if gen != claimed {
        feed.Close();
        return false;
      }
      att := Some(Attachment(id, feed, udid));
      pending := "";
      installed := true;
    }

    method FailAttach(claimed: nat) returns (report: bool)
      modifies this
      ensures report == Fail(old(View()), claimed).Some?
      ensures View() == if report then Fail(old(View()), claimed).value else old(View())
    {
      if gen != claimed {
        return false;
      }
      pending := "";
      report := true;
    }

    method PumpEnded(own: Attachment<Feed>) returns (current: bool)
      modifies this, own.feed
      ensures current == Release(old(View()), own.id).Some?
      ensures View() == if current then Release(old(View()), own.id).value else old(View())
      ensures own.feed.closes == old(own.feed.closes) + (if current then 1 else 0)
    {
      current := att.Some? && att.value.id == own.id;
      if current {
        att := None;
        own.feed.Close();
      }
    }
  }
}
