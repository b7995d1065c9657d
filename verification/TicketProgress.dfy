/** The bakery part of a ticket, as values.

    `Progress` holds the fields of ticket.h that the protocol reads and writes, without the
    dates.  Each function is the transition one method of the ticket class performs on them.
    The class in Ticket.dfy is proved to perform exactly these transitions, and the message
    handlers of Leader.dfy are built from them. */
module TicketProgress {
  import opened KeyOrder

  type ServerName = string

  datatype Progress = Progress(
    owner: ServerName,
    entering: EnteringKey,
    getMax: bool,
    number: nat,
    added: bool,
    quorum: bool,
    still: set<EnteringKey>,
    ready: bool,
    locked: bool,
    failed: bool)
  {
    /** f_ticket_key, once the ticket was added. */
    function Key(): TicketKey { TicketKey(number, entering) }
  }

  function NewTicket(owner: ServerName, entering: EnteringKey): Progress {
    Progress(owner, entering, false, 0, false, false, {}, false, false, false)
  }

  /** ticket::entered, with the largest number in the owner's own table. */
  function Entered(t: Progress, last: nat): Progress {
    if t.getMax then t else t.(getMax := true, number := last)
  }

  function Max(a: nat, b: nat): nat { if a < b then b else a }

  /** ticket::max_ticket throws instead of reusing number 0. */
  predicate WrapsAround(t: Progress, newMax: nat) {
    Max(t.number, newMax) + 1 >= NUMBER_LIMIT
  }

  /** ticket::max_ticket followed by the field updates of ticket::add_ticket. */
  function Numbered(t: Progress, newMax: nat): Progress {
    if t.added then t else t.(number := Max(t.number, newMax) + 1, added := true)
  }

  /** ticket::set_ticket_number throws when the ticket already has a number. */
  predicate HasNumber(t: Progress) { t.number != 0 || t.added }

  function SetTicketNumber(t: Progress, number: nat): Progress {
    t.(number := number, added := true)
  }

  function Acknowledged(t: Progress, entering: set<EnteringKey>): Progress {
    if t.quorum then t else t.(quorum := true, still := entering)
  }

  /** ticket::remove_entering; `expired` are the still entering keys that timed out. */
  function RemoveEntering(t: Progress, key: EnteringKey, expired: set<EnteringKey>): Progress {
    if t.quorum && !t.ready && key in t.still then
      var rest := t.still - {key} - expired;
      t.(still := rest, ready := rest == {})
    else t
  }

  function SetReady(t: Progress): Progress { t.(ready := true) }

  /** The guard shared by ticket::activate_lock and ticket::lock_activated. */
  predicate CanLock(t: Progress) { t.ready && !t.locked && !t.failed }

  function Activated(t: Progress): Progress {
    if CanLock(t) then t.(locked := true) else t
  }

  /** ticket::drop_ticket and ticket::lock_failed leave the ticket marked as failed. */
  function Failed(t: Progress): Progress { t.(failed := true) }
}
