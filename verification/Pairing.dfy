/** The single-use enrollment window (internal/server/pairing_window.go) and the pinned set
    (internal/server/pinned.go). */
module Pairing {
  import opened Base

  /** Signature and HMAC checks, as the predicates they are to the rest of the program. */
  datatype Crypto = Crypto(signed: (string, string, string) -> bool,
                           enrolls: (string, string, string, string) -> bool)

  datatype Verdict = Accepted | NoWindow | Expired | Used | BadProof

  /** `expires` is None until the window is armed for the first time. */
  datatype Window = Window(secret: string, expires: Option<int>, consumed: bool, cancelled: bool)

  const UNARMED := Window("", None, false, false)

  function Arm(secret: string, now: int, ttl: int): Window {
    Window(secret, Some(now + ttl), false, false)
  }

  function Disarm(w: Window): Window {
    w.(secret := "", cancelled := true)
  }

  /** The zero time is before every instant. */
  predicate Past(w: Window, now: int) {
    w.expires.None? || now > w.expires.value
  }

  function Judge(w: Window, crypto: Crypto, key: string, nonce: string, proof: string, now: int): Verdict {
    if w.consumed then Used
    else if w.secret == "" && w.expires.None? then NoWindow
    else if Past(w, now) then Expired
    else if w.cancelled then Expired
    else if !crypto.enrolls(w.secret, key, nonce, proof) then BadProof
    else Accepted
  }

  /** An accepted proof uses the window up; any other leaves it alone. */
  function Spend(w: Window, v: Verdict): Window {
    if v.Accepted? then w.(consumed := true, secret := "") else w
  }

  datatype Phase = Consumed | NeverArmed | Lapsed | Open

  function PhaseOf(w: Window, now: int): Phase {
    if w.consumed then Consumed
    else if w.secret == "" && w.expires.None? then NeverArmed
    else if w.cancelled || Past(w, now) then Lapsed
    else Open
  }

  /** The reported phase and the verdict never disagree, in any state of the window. */
  lemma PhaseMatchesVerdict(w: Window, crypto: Crypto, key: string, nonce: string, proof: string, now: int)
    ensures var v := Judge(w, crypto, key, nonce, proof, now);
            match PhaseOf(w, now)
            case Consumed => v == Used
            case NeverArmed => v == NoWindow
            case Lapsed => v == Expired
            case Open => v == (if crypto.enrolls(w.secret, key, nonce, proof) then Accepted else BadProof)
  {
  }

  /** What is done to a window between one arming and the next. */
  datatype Use = Try(key: string, nonce: string, proof: string, now: int) | Cancel

  function Worn(w: Window, crypto: Crypto, uses: seq<Use>): Window {
    if uses == [] then w
    else
      var before := Worn(w, crypto, uses[..|uses| - 1]);
      match uses[|uses| - 1]
      case Cancel => Disarm(before)
      case Try(key, nonce, proof, now) => Spend(before, Judge(before, crypto, key, nonce, proof, now))
  }

  /** A proof made from the secret, in time. */
  predicate Good(crypto: Crypto, secret: string, expires: int, u: Use) {
    u.Try? && u.now <= expires && crypto.enrolls(secret, u.key, u.nonce, u.proof)
  }

  /** Nothing so far but proofs that fail. */
  predicate OnlyFailures(crypto: Crypto, secret: string, expires: int, uses: seq<Use>) {
    forall j :: 0 <= j < |uses| ==> uses[j].Try? && !Good(crypto, secret, expires, uses[j])
  }

  /** A good proof came, and nothing before it but proofs that fail. */
  predicate Spent(crypto: Crypto, secret: string, expires: int, uses: seq<Use>) {
    exists j :: 0 <= j < |uses| && Good(crypto, secret, expires, uses[j])
                && OnlyFailures(crypto, secret, expires, uses[..j])
  }

  predicate Cancelled(uses: seq<Use>) {
    exists j :: 0 <= j < |uses| && uses[j].Cancel?
  }

  lemma SpentStep(crypto: Crypto, secret: string, expires: int, uses: seq<Use>)
    requires uses != []
    ensures var before, last := uses[..|uses| - 1], uses[|uses| - 1];
            && (Spent(crypto, secret, expires, uses) <==>
                  Spent(crypto, secret, expires, before)
                  || (Good(crypto, secret, expires, last) && OnlyFailures(crypto, secret, expires, before)))
            && (Cancelled(uses) <==> Cancelled(before) || last.Cancel?)
            && (OnlyFailures(crypto, secret, expires, uses) <==>
                  OnlyFailures(crypto, secret, expires, before) && last.Try? && !Good(crypto, secret, expires, last))
  {
    var n := |uses| - 1;
    forall j | 0 <= j < n ensures uses[..n][j] == uses[j] && uses[..n][..j] == uses[..j] {}
  }

  lemma {:induction false} WornState(crypto: Crypto, secret: string, now: int, ttl: int, uses: seq<Use>)
    ensures var w := Worn(Arm(secret, now, ttl), crypto, uses);
            && w.expires == Some(now + ttl)
            && (w.consumed <==> Spent(crypto, secret, now + ttl, uses))
            && (w.cancelled <==> Cancelled(uses))
            && (OnlyFailures(crypto, secret, now + ttl, uses) <==> !w.consumed && !w.cancelled)
            && (!w.consumed && !w.cancelled ==> w == Arm(secret, now, ttl))
    decreases |uses|
  {
    if uses != [] {
      WornState(crypto, secret, now, ttl, uses[..|uses| - 1]);
      SpentStep(crypto, secret, now + ttl, uses);
    }
  }

  /** One arming admits exactly the first good proof, and that only if nobody cancelled before it: so it
      admits at most one, whatever is tried on it. A proof after that one is told the window is used, cancelled
      or not; before it, one that is late or comes after a cancellation is told the window has expired, and
      any other that it is bad. */
  lemma {:induction false} FirstGoodProofOnly(crypto: Crypto, secret: string, now: int, ttl: int, uses: seq<Use>,
                                              u: Use)
    requires u.Try?
    ensures var w := Worn(Arm(secret, now, ttl), crypto, uses);
            var v := Judge(w, crypto, u.key, u.nonce, u.proof, u.now);
            var spent := Spent(crypto, secret, now + ttl, uses);
            var over := Cancelled(uses) || u.now > now + ttl;
            && (v.Accepted? <==>
                  OnlyFailures(crypto, secret, now + ttl, uses) && Good(crypto, secret, now + ttl, u))
            && (v.Used? <==> spent)
            && (v.Expired? <==> !spent && over)
            && (v.BadProof? <==> !spent && !over && !crypto.enrolls(secret, u.key, u.nonce, u.proof))
  {
    WornState(crypto, secret, now, ttl, uses);
  }

  class PairingWindow {
    var secret: string
    var expires: Option<int>
    var consumed: bool
    var cancelled: bool

    ghost function View(): Window
      reads this
    {
      Window(secret, expires, consumed, cancelled)
    }

    constructor ()
      ensures View() == UNARMED
    {
      secret, expires, consumed, cancelled := "", None, false, false;
    }

    method OpenWindow(s: string, now: int, ttl: int)
      modifies this
      ensures View() == Arm(s, now, ttl)
    {
      secret := s;
      expires := Some(now + ttl);
      consumed := false;
      cancelled := false;
    }

    method Verify(crypto: Crypto, key: string, nonce: string, proof: string, now: int) returns (v: Verdict)
      modifies this
      ensures v == Judge(old(View()), crypto, key, nonce, proof, now)
      ensures View() == Spend(old(View()), v)
    {
      if consumed {
        return Used;
      }
      if secret == "" && expires.None? {
        return NoWindow;
      }
      if expires.None? || now > expires.value {
        return Expired;
      }
      if cancelled {
        return Expired;
      }
      if !crypto.enrolls(secret, key, nonce, proof) {
        return BadProof;
      }
      consumed := true;
      secret := "";
      return Accepted;
    }

    method Close()
      modifies this
      ensures View() == Disarm(old(View()))
    {
      secret := "";
      cancelled := true;
    }

    method State(now: int) returns (phase: Phase)
      ensures phase == PhaseOf(View(), now)
    {
      if consumed {
        phase := Consumed;
      } else if secret == "" && expires.None? {
        phase := NeverArmed;
      } else if cancelled || expires.None? || now > expires.value {
        phase := Lapsed;
      } else {
        phase := Open;
      }
    }
  }

  /** The keys in memory and the keys in the file. */
  datatype Pins = Pins(memory: set<string>, disk: set<string>)

  /** Memory changes first; the file follows only if the save succeeds. */
  function Pin(p: Pins, key: string, saved: bool): Pins {
    var memory := p.memory + {key};
    Pins(memory, if saved then memory else p.disk)
  }

  function Unpin(p: Pins, key: string, saved: bool): Pins {
    var memory := p.memory - {key};
    Pins(memory, if saved then memory else p.disk)
  }

  class PinnedStore {
    var memory: set<string>
    var disk: set<string>

    ghost function View(): Pins
      reads this
    {
      Pins(memory, disk)
    }

    /** What is in the file is what is loaded. */
    constructor (stored: set<string>)
      ensures View() == Pins(stored, stored)
    {
      memory, disk := stored, stored;
    }

    method Contains(key: string) returns (ok: bool)
      ensures ok <==> key in View().memory
    {
      ok := key in memory;
    }

    method Add(key: string, saved: bool) returns (ok: bool)
      modifies this
      ensures View() == Pin(old(View()), key, saved) && ok == saved
    {
      memory := memory + {key};
      ok := Save(saved);
    }

    method Remove(key: string, saved: bool) returns (ok: bool)
      modifies this
      ensures View() == Unpin(old(View()), key, saved) && ok == saved
    {
      memory := memory - {key};
      ok := Save(saved);
    }

    method Save(succeeds: bool) returns (ok: bool)
      modifies this`disk
      ensures disk == (if succeeds then memory else old(disk)) && ok == succeeds
    {
      if succeeds {
        disk := memory;
      }
      ok := succeeds;
    }
  }
}
