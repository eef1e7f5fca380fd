/** The keyboard queue and the command port through which the guest empties it. */
module Keyboard {
  import opened Words

  const KB_BUF_MAX := 7

  /** `cnt` keys are queued at the front of the buffer; the rest of it is stale. */
  datatype Kb = Kb(buf: seq<byte>, cnt: nat, dataFlag: bool, overflow: bool, locks: Locks)

  datatype Locks = Locks(cursor: bool, caps: bool, autorepeat: bool)

  predicate Ok(k: Kb) { |k.buf| == KB_BUF_MAX && k.cnt <= KB_BUF_MAX }

  function Queue(k: Kb): seq<byte>
    requires Ok(k)
  {
    k.buf[..k.cnt]
  }

  function Pushed(k: Kb, key: byte): (r: Kb)
    requires Ok(k)
    ensures Ok(r)
  {
    if k.cnt >= KB_BUF_MAX then k.(overflow := true)
    else k.(buf := k.buf[k.cnt := key], cnt := k.cnt + 1, dataFlag := true)
  }

  /** The buffer after `n` bytes have moved down by one. */
  function ShiftDown(buf: seq<byte>, n: nat): (r: seq<byte>)
    requires n < |buf|
    ensures |r| == |buf|
  {
    buf[1..n + 1] + buf[n..]
  }

  function Popped(k: Kb): (r: Kb)
    requires Ok(k)
    ensures Ok(r)
  {
    var cnt := if k.cnt != 0 then k.cnt - 1 else 0;
    k.(buf := ShiftDown(k.buf, cnt), cnt := cnt, dataFlag := cnt != 0)
  }

  function Cleared(k: Kb): Kb {
    Kb(k.buf, 0, false, false, Locks(false, false, false))
  }

  /** The fields of the board that the command port works on; `nibble` is the low half of status
      register 2 as the last command left it, `low1` bit 0 of status register 1. */
  datatype Board = Board(kb: Kb, kbMi: bool, kbNmi: bool, ack: bool, ctrl: byte, nibble: byte, low1: bool, motor: bool)

  function Flag(b: bool): byte { if b then 1 else 0 }

  /** The command in the low three bits of a write to the control register; `sector` is what the disk
      controller shows. */
  function Act(b: Board, cmd: nat, sector: byte): Board
    requires Ok(b.kb)
  {
    match cmd
    case 0 => b.(nibble := sector % 16)
    case 5 => b.(motor := true, nibble := sector % 16)
    case 1 => b.(nibble := b.kb.buf[0] % 16)
    case 2 => b.(nibble := b.kb.buf[0] / 16, kb := Popped(b.kb))
    case 3 => b.(low1 := b.kbMi, nibble := Flag(b.kbMi), kbMi := !b.kbMi)
    case 4 => Locked(b, b.kb.locks.(cursor := !b.kb.locks.cursor), !b.kb.locks.cursor)
    case 6 => b.(nibble := 0)
    case _ =>
      if b.ctrl % 8 == 6 then b.(kbNmi := !b.kbNmi, nibble := Flag(!b.kbNmi))
      else Locked(b, b.kb.locks.(caps := !b.kb.locks.caps), !b.kb.locks.caps)
  }

  function Locked(b: Board, locks: Locks, on: bool): Board { b.(kb := b.kb.(locks := locks), nibble := Flag(on)) }

  /** A write to the control register: bit 4 clear resets the keyboard; then the command. */
  function Command(b: Board, data: byte, sector: byte): Board
    requires Ok(b.kb)
  {
    hide Act, Bit;
    var b1 := if Bit(data, 16) then b else b.(kb := Cleared(b.kb));
    var c := Act(b1, data % 8, sector);
    c.(ctrl := data, ack := !c.ack)
  }

  /** Status register 2. After the show-sector commands its low half follows the disk. */
  datatype Status = Status(ack: bool, dataFlag: bool, overflow: bool, autorepeat: bool, nibble: byte)

  function ReadStatus(b: Board, sector: byte): Status {
    Status(b.ack, b.kbMi && b.kb.dataFlag, b.kbMi && b.kb.overflow, b.kbMi && b.kb.locks.autorepeat,
           if b.ctrl % 8 == 0 || b.ctrl % 8 == 5 then sector % 16 else b.nibble)
  }

  // The driver protocol.

  /** Where the guest's driver is: it looks at the data flag, asks for the low half of the key and
      reads it, then for the high half and reads it. */
  datatype Guest = Idle | Saw | AskedLow | HasLow(low: byte) | AskedHigh(low: byte)

  /** One event: a key pressed on the host, or the guest's next port access. `Issue` is any command
      but 1 and 2, `Look` a read of the data flag. `sector` is what the disk shows at the time. */
  datatype Event = Press(key: byte) | Look | AskLow(data: byte) | ReadLow | AskHigh(data: byte) | ReadHigh
                 | Issue(data: byte) | Reset(data: byte)

  /** The run so far: keys accepted and bytes assembled since the last reset, whether a key met a full
      queue since, and the numbers of commands, and of commands 3 that switch the mask. */
  datatype World = World(board: Board, guest: Guest, accepted: seq<byte>, assembled: seq<byte>, missed: bool,
                         commands: nat, toggles: nat)

  predicate Enabled(w: World, e: Event) {
    match e
    case Press(_) => true
    case Look => w.guest.Idle?
    case AskLow(data) => w.guest.Saw? && data % 8 == 1 && Bit(data, 16)
    case ReadLow => w.guest.AskedLow?
    case AskHigh(data) => w.guest.HasLow? && data % 8 == 2 && Bit(data, 16)
    case ReadHigh => w.guest.AskedHigh?
    case Issue(data) =>
      (w.guest.Idle? || w.guest.Saw? || w.guest.HasLow?) && data % 8 != 1 && data % 8 != 2 && Bit(data, 16)
    case Reset(data) => w.guest.Idle? && !Bit(data, 16)
  }

  function Happen(w: World, e: Event, sector: byte): World
    requires Ok(w.board.kb)
  {
    match e
    case Press(key) =>
      var full := w.board.kb.cnt >= KB_BUF_MAX;
      w.(board := w.board.(kb := Pushed(w.board.kb, key)),
         accepted := if full then w.accepted else w.accepted + [key], missed := w.missed || full)
    case Look => if ReadStatus(w.board, sector).dataFlag then w.(guest := Saw) else w
    case AskLow(data) =>
      w.(board := Command(w.board, data, sector), guest := AskedLow, commands := w.commands + 1)
    case ReadLow => w.(guest := HasLow(ReadStatus(w.board, sector).nibble))
    case AskHigh(data) =>
      w.(board := Command(w.board, data, sector), guest := AskedHigh(if w.guest.HasLow? then w.guest.low else 0),
         commands := w.commands + 1)
    case ReadHigh =>
      var key := 16 * ReadStatus(w.board, sector).nibble + (if w.guest.AskedHigh? then w.guest.low else 0);
      w.(assembled := w.assembled + [Byte(key)], guest := Idle)
    case Issue(data) =>
      w.(board := Command(w.board, data, sector), commands := w.commands + 1, toggles := w.toggles + Third(data))
    case Reset(data) =>
      w.(board := Command(w.board, data, sector), accepted := [], assembled := [], missed := false,
         commands := w.commands + 1, toggles := w.toggles + Third(data))
  }

  function Third(data: byte): nat { if data % 8 == 3 then 1 else 0 }

  /** The keys still owed to the guest: the queue, and before it a key half read. */
  function Owed(w: World): seq<byte>
    requires Ok(w.board.kb)
  {
    var q := Queue(w.board.kb);
    if w.guest.AskedHigh? then [Byte(16 * w.board.nibble + w.guest.low)] + q else q
  }

  /** What every run keeps: accepted keys are those assembled and those owed, in order; the data flag
      says that the queue is not empty; overflow that a key met a full queue; the acknowledge bit is
      the parity of the commands, the mask that of the commands 3; and a half-read key is still at the
      front of the queue. */
  predicate Inv(w: World) {
    var b := w.board;
    && Ok(b.kb)
    && w.accepted == w.assembled + Owed(w)
    && (b.kb.dataFlag <==> Queue(b.kb) != [])
    && (b.kb.overflow <==> w.missed)
    && (b.ack <==> w.commands % 2 == 1)
    && (b.kbMi <==> w.toggles % 2 == 0)
    && match w.guest
       case Idle => true
       case Saw => Queue(b.kb) != []
       case AskedLow => Queue(b.kb) != [] && b.ctrl % 8 == 1 && b.nibble == Queue(b.kb)[0] % 16
       case HasLow(low) => Queue(b.kb) != [] && low == Queue(b.kb)[0] % 16
       case AskedHigh(low) => b.ctrl % 8 == 2
  }

  function Start(): World {
    var kb := Kb([0, 0, 0, 0, 0, 0, 0], 0, false, false, Locks(false, false, false));
    World(Board(kb, true, true, false, 0, 0, false, false), Idle, [], [], false, 0, 0)
  }

  lemma PushedQueue(k: Kb, key: byte)
    requires Ok(k)
    ensures Queue(Pushed(k, key)) == if |Queue(k)| < 7 then Queue(k) + [key] else Queue(k)
    ensures Pushed(k, key).overflow == (k.overflow || |Queue(k)| == 7) && |Queue(k)| == k.cnt
  {
  }

  lemma PoppedQueue(k: Kb)
    requires Ok(k)
    ensures Queue(Popped(k)) == if k.cnt == 0 then [] else Queue(k)[1..]
  {
  }

  lemma ActLocks(b: Board, cmd: nat, sector: byte)
    requires Ok(b.kb) && (cmd == 4 || cmd == 7)
    ensures var c := Act(b, cmd, sector); c.ack == b.ack && c.kbMi == b.kbMi && c.kb == b.kb.(locks := c.kb.locks)
  {
  }

  lemma ActKeys(b: Board, sector: byte)
    requires Ok(b.kb)
    ensures Act(b, 1, sector) == b.(nibble := b.kb.buf[0] % 16)
    ensures Act(b, 2, sector) == b.(nibble := b.kb.buf[0] / 16, kb := Popped(b.kb))
  {
    hide Popped;
  }

  lemma ActElse(b: Board, cmd: nat, sector: byte)
    requires Ok(b.kb) && cmd in {0, 3, 5, 6}
    ensures var c := Act(b, cmd, sector);
      c.ack == b.ack && c.kb == b.kb && c.kbMi == (if cmd == 3 then !b.kbMi else b.kbMi)
  {
  }

  /** Commands other than 2 leave the queue alone. */
  lemma ActQueue(b: Board, cmd: nat, sector: byte)
    requires Ok(b.kb) && cmd < 8
    ensures var c := Act(b, cmd, sector);
      && Ok(c.kb) && c.ack == b.ack && c.kbMi == (if cmd == 3 then !b.kbMi else b.kbMi)
      && (cmd != 2 ==> c.kb == b.kb.(locks := c.kb.locks))
      && (cmd == 1 ==> c.nibble == b.kb.buf[0] % 16)
      && (cmd == 2 ==> c.nibble == b.kb.buf[0] / 16 && c.kb == Popped(b.kb))
  {
    hide Act, Popped;
    if cmd == 4 || cmd == 7 {
      ActLocks(b, cmd, sector);
    } else if cmd == 1 || cmd == 2 {
      ActKeys(b, sector);
    } else {
      ActElse(b, cmd, sector);
    }
  }

  lemma CommandQueue(b: Board, data: byte, sector: byte)
    requires Ok(b.kb)
    ensures var c := Command(b, data, sector);
      && Ok(c.kb) && c.ack == !b.ack && c.ctrl == data
      && c.kbMi == (if data % 8 == 3 then !b.kbMi else b.kbMi)
      && (!Bit(data, 16) ==> Queue(c.kb) == [] && !c.kb.dataFlag && !c.kb.overflow)
      && (Bit(data, 16) && data % 8 != 2 ==>
           Queue(c.kb) == Queue(b.kb) && c.kb.dataFlag == b.kb.dataFlag && c.kb.overflow == b.kb.overflow)
      && (Bit(data, 16) && data % 8 == 1 ==> c.nibble == b.kb.buf[0] % 16)
      && (Bit(data, 16) && data % 8 == 2 ==> c.nibble == b.kb.buf[0] / 16 && c.kb == Popped(b.kb))
  {
    hide Bit, Popped, Act;
    ActQueue(b, data % 8, sector);
    ActQueue(b.(kb := Cleared(b.kb)), data % 8, sector);
    PoppedQueue(Cleared(b.kb));
    PoppedFlags(Cleared(b.kb));
  }

  lemma ShownAfter(b: Board, data: byte, sector: byte, later: byte)
    requires Ok(b.kb) && Bit(data, 16)
    ensures var c, a := Command(b, data, sector), Act(b, data % 8, sector);
      && c == a.(ctrl := data, ack := !a.ack)
      && ReadStatus(c, later).nibble == if data % 8 == 0 || data % 8 == 5 then later % 16 else a.nibble
  {
    hide Act, Bit;
  }

  /** What status register 2 shows in its low half after each command: the sector as the disk turns, a
      half of the first key, the mask as it was, nothing. */
  lemma Answers(b: Board, data: byte, sector: byte, later: byte)
    requires Ok(b.kb) && Bit(data, 16) && data % 8 != 4 && data % 8 != 7
    ensures var c := Command(b, data, sector);
      var shown := ReadStatus(c, later).nibble;
      match data % 8
      case 0 => shown == later % 16 && c.motor == b.motor
      case 1 => shown == b.kb.buf[0] % 16
      case 2 => shown == b.kb.buf[0] / 16
      case 3 => shown == (if b.kbMi then 1 else 0) && c.kbMi != b.kbMi && c.low1 == b.kbMi
      case 5 => shown == later % 16 && c.motor
      case _ => shown == 0 && c.kbNmi == b.kbNmi
  {
    hide Bit, Popped, Command, Locked, ReadStatus;
    ShownAfter(b, data, sector, later);
  }

  /** After the others, the switch just turned: the cursor lock, the non-maskable interrupt by 6 and then 7,
      the capitals lock by 7 alone. */
  lemma AnswersOfLocks(b: Board, data: byte, sector: byte, later: byte)
    requires Ok(b.kb) && Bit(data, 16) && (data % 8 == 4 || data % 8 == 7)
    ensures var c, l := Command(b, data, sector), b.kb.locks;
      var shown := ReadStatus(c, later).nibble;
      if data % 8 == 4 then shown == (if l.cursor then 0 else 1) && c.kb.locks == l.(cursor := !l.cursor)
      else if b.ctrl % 8 == 6 then shown == (if b.kbNmi then 0 else 1) && c.kbNmi != b.kbNmi && c.kb.locks == l
      else shown == (if l.caps then 0 else 1) && c.kb.locks == l.(caps := !l.caps) && c.kbNmi == b.kbNmi
  {
    hide Bit, Command, ReadStatus;
    ShownAfter(b, data, sector, later);
  }

  lemma WholeKey(k: byte)
    ensures Byte(16 * (k / 16) + k % 16) == k
  {
  }

  /** One event of either side keeps the invariant. */
  lemma HappenKeeps(w: World, e: Event, sector: byte)
    requires Inv(w) && Enabled(w, e)
    ensures Inv(Happen(w, e, sector))
  {
    hide Bit, Command, Pushed, Popped;
    match e {
      case Press(key) => PressKeeps(w, key, sector);
      case AskHigh(data) => AskHighKeeps(w, data, sector);
      case ReadHigh => ReadHighKeeps(w, sector);
      case AskLow(data) => CommandKeeps(w, e, data, sector);
      case Issue(data) => CommandKeeps(w, e, data, sector);
      case Reset(data) => CommandKeeps(w, e, data, sector);
      case _ =>
    }
  }

  lemma CommandKeeps(w: World, e: Event, data: byte, sector: byte)
    requires Inv(w) && Enabled(w, e) && (e == AskLow(data) || e == Issue(data) || e == Reset(data))
    ensures Inv(Happen(w, e, sector))
  {
    hide Bit, Command;
    CommandQueue(w.board, data, sector);
  }

  /** Asking for the high half takes the key off the queue, and it is still owed. */
  lemma AskHighOwed(w: World, data: byte, sector: byte)
    requires Inv(w) && Enabled(w, AskHigh(data))
    ensures Owed(Happen(w, AskHigh(data), sector)) == Owed(w) == Queue(w.board.kb)
  {
    hide Bit, Command, Popped, ReadStatus, Byte, Queue;
    var q := Queue(w.board.kb);
    CommandQueue(w.board, data, sector);
    PoppedQueue(w.board.kb);
    PoppedFlags(w.board.kb);
    QueueFirst(w.board.kb);
    WholeKey(q[0]);
    assert q == [q[0]] + q[1..];
  }

  lemma QueueFirst(k: Kb)
    requires Ok(k) && Queue(k) != []
    ensures k.cnt != 0 && Queue(k)[0] == k.buf[0]
  {
  }

  lemma AskHighKeeps(w: World, data: byte, sector: byte)
    requires Inv(w) && Enabled(w, AskHigh(data))
    ensures Inv(Happen(w, AskHigh(data), sector))
  {
    hide Bit, Command, Popped, ReadStatus, Byte, Queue, Owed;
    AskHighOwed(w, data, sector);
    CommandQueue(w.board, data, sector);
    PoppedFlags(w.board.kb);
  }

  lemma ReadHighKeeps(w: World, sector: byte)
    requires Inv(w) && Enabled(w, ReadHigh)
    ensures Inv(Happen(w, ReadHigh, sector))
  {
    hide Bit;
    assert w.assembled + Owed(w) == (w.assembled + [Owed(w)[0]]) + Queue(w.board.kb);
  }

  lemma PoppedFlags(k: Kb)
    requires Ok(k)
    ensures Popped(k).dataFlag == (Queue(Popped(k)) != []) && Popped(k).overflow == k.overflow
  {
    hide ShiftDown;
  }

  lemma PushedFlags(k: Kb, key: byte)
    requires Ok(k)
    ensures var p := Pushed(k, key);
      && p.dataFlag == (k.dataFlag || k.cnt < KB_BUF_MAX) && p.overflow == (k.overflow || k.cnt >= KB_BUF_MAX)
  {
  }

  lemma Appended(a: seq<byte>, b: seq<byte>, key: byte)
    ensures a + (b + [key]) == (a + b) + [key]
  {
  }

  lemma PressOwed(w: World, key: byte, sector: byte)
    requires Ok(w.board.kb)
    ensures Owed(Happen(w, Press(key), sector))
         == if w.board.kb.cnt >= KB_BUF_MAX then Owed(w) else Owed(w) + [key]
  {
    hide Bit, Command, Pushed, ReadStatus, Byte, Queue;
    PushedQueue(w.board.kb, key);
    if w.guest.AskedHigh? {
      Appended([Byte(16 * w.board.nibble + w.guest.low)], Queue(w.board.kb), key);
    }
  }

  lemma PressKeeps(w: World, key: byte, sector: byte)
    requires Inv(w)
    ensures Inv(Happen(w, Press(key), sector))
  {
    hide Bit, Command, Pushed, ReadStatus, Byte, Queue, Owed;
    PressOwed(w, key, sector);
    PushedQueue(w.board.kb, key);
    PushedFlags(w.board.kb, key);
    Appended(w.assembled, Owed(w), key);
  }

  /** A run: events with the sector shown at each, every one enabled where it happens. */
  predicate Legal(w: World, events: seq<(Event, byte)>)
    requires Ok(w.board.kb)
    decreases |events|
  {
    events == [] ||
    (Enabled(w, events[0].0) &&
     var v := Happen(w, events[0].0, events[0].1);
     Ok(v.board.kb) && Legal(v, events[1..]))
  }

  function After(w: World, events: seq<(Event, byte)>): World
    requires Ok(w.board.kb) && Legal(w, events)
    decreases |events|
  {
    if events == [] then w else After(Happen(w, events[0].0, events[0].1), events[1..])
  }

  lemma {:induction false} RunKeeps(w: World, events: seq<(Event, byte)>)
    requires Inv(w) && Legal(w, events)
    ensures Inv(After(w, events))
    decreases |events|
  {
    hide Inv, Happen, Enabled;
    InvOk(w);
    if events != [] {
      HappenKeeps(w, events[0].0, events[0].1);
      RunKeeps(Happen(w, events[0].0, events[0].1), events[1..]);
    }
  }

  lemma InvOk(w: World)
    requires Inv(w)
    ensures Ok(w.board.kb)
  {
  }

  /** For any interleaving of keys and driver accesses from power on: whenever the driver is idle, the
      keys accepted since the last reset are the bytes it has assembled followed by the queue; the
      data flag, the overflow flag and the acknowledge bit mean what they should. */
  lemma Handshake(events: seq<(Event, byte)>)
    requires Legal(Start(), events)
    ensures var w := After(Start(), events);
      && Ok(w.board.kb)
      && (w.guest.Idle? ==> w.accepted == w.assembled + Queue(w.board.kb))
      && (w.board.kb.dataFlag <==> Queue(w.board.kb) != [])
      && (w.board.kb.overflow <==> w.missed)
      && (w.board.ack <==> w.commands % 2 == 1)
  {
    hide Legal, After, Happen;
    RunKeeps(Start(), events);
  }

  /** What the guest reads at the status port after any run from power on: the data flag shows that the
      queue is not empty, and overflow that a key met a full queue, while the mask is on, which it is
      after an even number of commands 3; the acknowledge bit is the parity of the commands. */
  lemma StatusShows(events: seq<(Event, byte)>, sector: byte)
    requires Legal(Start(), events)
    ensures var w := After(Start(), events);
      var s, on := ReadStatus(w.board, sector), w.toggles % 2 == 0;
      && Ok(w.board.kb)
      && (s.dataFlag <==> on && Queue(w.board.kb) != [])
      && (s.overflow <==> on && w.missed)
      && (s.ack <==> w.commands % 2 == 1)
  {
    hide Legal, After, Happen;
    RunKeeps(Start(), events);
  }

  // Progress: a driver that goes on gets the next key.

  /** The driver's own turns among the events. */
  function Turns(events: seq<(Event, byte)>): seq<Event> {
    if events == [] then []
    else if events[0].0.Press? then Turns(events[1..]) else [events[0].0] + Turns(events[1..])
  }

  /** The turns that are left before the driver has assembled a key. */
  predicate Remaining(g: Guest, turns: seq<Event>)
    decreases |turns|
  {
    match g
    case Idle => |turns| == 5 && turns[0].Look? && Remaining(Saw, turns[1..])
    case Saw => |turns| == 4 && Asks(turns[0], 1) && Remaining(AskedLow, turns[1..])
    case AskedLow => |turns| == 3 && turns[0].ReadLow? && Remaining(HasLow(0), turns[1..])
    case HasLow(_) => |turns| == 2 && Asks(turns[0], 2) && Remaining(AskedHigh(0), turns[1..])
    case AskedHigh(_) => turns == [ReadHigh]
  }

  /** Command 1 or 2, with the reset bit set. */
  predicate Asks(e: Event, cmd: nat) {
    match e
    case AskLow(data) => cmd == 1 && data % 8 == 1 && Bit(data, 16)
    case AskHigh(data) => cmd == 2 && data % 8 == 2 && Bit(data, 16)
    case _ => false
  }

  /** The driver is on its way to the key `key`, with the mask on. */
  predicate Fetching(w: World, turns: seq<Event>, key: byte) {
    Inv(w) && w.toggles % 2 == 0 && Owed(w) != [] && Owed(w)[0] == key && Remaining(w.guest, turns)
  }

  lemma LowIrrelevant(x: byte, turns: seq<Event>)
    ensures Remaining(HasLow(x), turns) == Remaining(HasLow(0), turns)
    ensures Remaining(AskedHigh(x), turns) == Remaining(AskedHigh(0), turns)
  {
  }

  lemma TurnOpens(w: World, turns: seq<Event>, key: byte, sector: byte)
    requires Fetching(w, turns, key) && (w.guest.Idle? || w.guest.Saw? || w.guest.AskedLow?)
    ensures Enabled(w, turns[0])
    ensures var v := Happen(w, turns[0], sector); Fetching(v, turns[1..], key) && v.assembled == w.assembled
  {
    hide Bit, Command, Queue, Byte;
    HappenKeeps(w, turns[0], sector);
    var v := Happen(w, turns[0], sector);
    if v.guest.HasLow? {
      LowIrrelevant(v.guest.low, turns[1..]);
    }
    if w.guest.Saw? {
      CommandQueue(w.board, turns[0].data, sector);
    }
  }

  lemma TurnAsksHigh(w: World, turns: seq<Event>, key: byte, sector: byte)
    requires Fetching(w, turns, key) && w.guest.HasLow?
    ensures Enabled(w, turns[0])
    ensures var v := Happen(w, turns[0], sector); Fetching(v, turns[1..], key) && v.assembled == w.assembled
  {
    hide Bit, Command, Queue, Byte, Owed, Inv;
    InvOk(w);
    AskHighOwed(w, turns[0].data, sector);
    HappenKeeps(w, turns[0], sector);
    LowIrrelevant(w.guest.low, turns[1..]);
  }

  lemma TurnCloses(w: World, turns: seq<Event>, key: byte, sector: byte)
    requires Fetching(w, turns, key) && w.guest.AskedHigh?
    ensures turns == [ReadHigh] && Enabled(w, ReadHigh)
    ensures var v := Happen(w, ReadHigh, sector);
      Inv(v) && v.guest.Idle? && v.assembled == w.assembled + [key]
  {
    hide Bit, Queue;
    HappenKeeps(w, ReadHigh, sector);
  }

  /** Keys pressed while the driver is idle change nothing of what it has. */
  lemma {:induction false} OnlyPresses(w: World, events: seq<(Event, byte)>)
    requires Inv(w) && Turns(events) == []
    ensures Ok(w.board.kb) && Legal(w, events)
    ensures After(w, events).guest == w.guest && After(w, events).assembled == w.assembled
    decreases |events|
  {
    hide Inv, Happen;
    InvOk(w);
    if events != [] {
      var v := Happen(w, events[0].0, events[0].1);
      HappenKeeps(w, events[0].0, events[0].1);
      PressIs(w, events[0].0, events[0].1);
      OnlyPresses(v, events[1..]);
      InvOk(v);
    }
  }

  lemma PressIs(w: World, e: Event, sector: byte)
    requires Ok(w.board.kb) && e.Press?
    ensures var v := Happen(w, e, sector);
      v.guest == w.guest && v.assembled == w.assembled && v.toggles == w.toggles
  {
    hide Pushed;
  }

  lemma PressGoesOn(w: World, turns: seq<Event>, key: byte, e: Event, sector: byte)
    requires Fetching(w, turns, key) && e.Press?
    ensures Enabled(w, e) && Fetching(Happen(w, e, sector), turns, key)
    ensures Happen(w, e, sector).assembled == w.assembled
  {
    hide Inv, Owed, Happen, Remaining;
    InvOk(w);
    HappenKeeps(w, e, sector);
    PressIs(w, e, sector);
    PressOwed(w, e.key, sector);
  }

  /** With the mask on and a key owed, a driver that takes its turns, with keys pressed at any time in
      between, comes to be idle with exactly that key added to what it has assembled. */
  lemma {:induction false} KeyFetched(w: World, events: seq<(Event, byte)>, key: byte)
    requires Fetching(w, Turns(events), key)
    ensures Ok(w.board.kb) && Legal(w, events)
    ensures After(w, events).guest.Idle? && After(w, events).assembled == w.assembled + [key]
    decreases |events|
  {
    hide Inv, Happen, Enabled, Owed, Remaining;
    SomeTurn(w, Turns(events), key);
    InvOk(w);
    var e, sector, turns := events[0].0, events[0].1, Turns(events);
    var v := Happen(w, e, sector);
    if e.Press? {
      PressGoesOn(w, turns, key, e, sector);
      KeyFetched(v, events[1..], key);
    } else {
      assert e == turns[0] && Turns(events[1..]) == turns[1..];
      if w.guest.AskedHigh? {
        TurnCloses(w, turns, key, sector);
        OnlyPresses(v, events[1..]);
      } else {
        if w.guest.HasLow? {
          TurnAsksHigh(w, turns, key, sector);
        } else {
          TurnOpens(w, turns, key, sector);
        }
        KeyFetched(v, events[1..], key);
      }
    }
  }

  lemma SomeTurn(w: World, turns: seq<Event>, key: byte)
    requires Fetching(w, turns, key)
    ensures turns != [] && Inv(w)
  {
  }

  /** From power on: when the driver is idle, the mask is on and the queue is not empty, looking, asking
      and reading both halves gives it the first key of the queue. */
  lemma DriverProgress(events: seq<(Event, byte)>, more: seq<(Event, byte)>)
    requires Legal(Start(), events)
    requires var w := After(Start(), events);
      && Ok(w.board.kb) && w.guest.Idle? && w.toggles % 2 == 0 && Queue(w.board.kb) != []
      && Remaining(Idle, Turns(more))
    ensures var w := After(Start(), events);
      && Legal(w, more) && After(w, more).guest.Idle?
      && After(w, more).assembled == w.assembled + [Queue(w.board.kb)[0]]
  {
    hide Legal, After, Happen, Remaining, Turns;
    RunKeeps(Start(), events);
    var w := After(Start(), events);
    KeyFetched(w, more, Queue(w.board.kb)[0]);
  }

  // The same in place.

  class KeyboardDevice {
    const buf: array<byte>
    var cnt: nat
    var dataFlag: bool
    var overflow: bool
    var locks: Locks

    ghost predicate Valid()
      reads this
    {
      buf.Length == KB_BUF_MAX && cnt <= KB_BUF_MAX
    }

    ghost function State(): (k: Kb)
      requires Valid()
      reads this, buf
      ensures Ok(k)
    {
      Kb(buf[..], cnt, dataFlag, overflow, locks)
    }

    constructor ()
      ensures Valid() && fresh(buf)
      ensures State() == Start().board.kb
    {
      buf := new byte[KB_BUF_MAX](_ => 0);
      cnt := 0;
      dataFlag, overflow, locks := false, false, Locks(false, false, false);
      new;
      assert buf[..] == [0, 0, 0, 0, 0, 0, 0];
    }

    method Reset()
      requires Valid()
      modifies this
      ensures Valid() && State() == Cleared(old(State()))
    {
      cnt := 0;
      dataFlag, overflow, locks := false, false, Locks(false, false, false);
    }

    method Push(key: byte)
      requires Valid()
      modifies this, buf
      ensures Valid() && State() == Pushed(old(State()), key)
    {
      if cnt >= KB_BUF_MAX {
        overflow := true;
        return;
      }
      buf[cnt] := key;
      cnt := cnt + 1;
      dataFlag := true;
    }

    /** The key at the front; the queued ones behind it move down. */
    method Pop() returns (key: byte)
      requires Valid()
      modifies this, buf
      ensures Valid() && key == old(buf[0]) && State() == Popped(old(State()))
    {
      key := buf[0];
      if cnt != 0 {
        cnt := cnt - 1;
      }
      forall i | 0 <= i < cnt {
        buf[i] := buf[i + 1];
      }
      assert buf[..] == ShiftDown(old(buf[..]), cnt);
      dataFlag := cnt != 0;
    }

    method GetLsb() returns (v: byte)
      requires Valid()
      ensures v == State().buf[0] % 16
    {
      v := buf[0] % 16;
    }

    method GetMsb() returns (v: byte)
      requires Valid()
      modifies this, buf
      ensures Valid() && v == old(buf[0]) / 16 && State() == Popped(old(State()))
    {
      var key := Pop();
      v := key / 16;
    }
  }

  /** The control and status ports of the board. */
  class ControlPort {
    const kb: KeyboardDevice
    var kbMi: bool
    var kbNmi: bool
    var ack: bool
    var ctrl: byte
    var nibble: byte
    var low1: bool
    var motor: bool

    ghost predicate Valid()
      reads this, kb
    {
      kb.Valid()
    }

    ghost function State(): (b: Board)
      requires Valid()
      reads this, kb, kb.buf
      ensures Ok(b.kb)
    {
      Board(kb.State(), kbMi, kbNmi, ack, ctrl, nibble, low1, motor)
    }

    constructor (kb: KeyboardDevice)
      requires kb.Valid() && kb.State() == Start().board.kb
      ensures this.kb == kb && Valid() && State() == Start().board
    {
      this.kb := kb;
      kbMi, kbNmi, ack, ctrl, nibble, low1, motor := true, true, false, 0, 0, false, false;
    }

    method Obey(cmd: nat, sector: byte)
      requires Valid() && cmd < 8
      modifies this, kb, kb.buf
      ensures Valid() && State() == Act(old(State()), cmd, sector)
    {
      hide Popped;
      match cmd {
        case 0 => nibble := sector % 16;
        case 5 => motor, nibble := true, sector % 16;
        case 1 => nibble := kb.GetLsb();
        case 2 => nibble := kb.GetMsb();
        case 3 =>
          low1, nibble := kbMi, Flag(kbMi);
          kbMi := !kbMi;
        case 4 =>
          kb.locks := kb.locks.(cursor := !kb.locks.cursor);
          nibble := Flag(kb.locks.cursor);
        case 6 => nibble := 0;
        case _ =>
          if ctrl % 8 == 6 {
            kbNmi := !kbNmi;
            nibble := Flag(kbNmi);
          } else {
            kb.locks := kb.locks.(caps := !kb.locks.caps);
            nibble := Flag(kb.locks.caps);
          }
      }
    }

    method Write(data: byte, sector: byte)
      requires Valid()
      modifies this, kb, kb.buf
      ensures Valid() && State() == Command(old(State()), data, sector)
    {
      hide Act, Cleared, Bit;
      if !Bit(data, 16) {
        kb.Reset();
      }
      Obey(data % 8, sector);
      ctrl := data;
      ack := !ack;
    }

    method Read(sector: byte) returns (s: Status)
      requires Valid()
      ensures s == ReadStatus(State(), sector)
    {
      s := Status(ack, kbMi && kb.dataFlag, kbMi && kb.overflow, kbMi && kb.locks.autorepeat,
                  if ctrl % 8 == 0 || ctrl % 8 == 5 then sector % 16 else nibble);
    }

    /** One event, on the board itself and on what the guest's driver remembers. */
    method Serve(e: Event, sector: byte, guest: Guest, assembled: seq<byte>, ghost w: World)
      returns (guest': Guest, assembled': seq<byte>)
      requires Valid() && w.board == State() && w.guest == guest && w.assembled == assembled
      modifies this, kb, kb.buf
      ensures Valid()
      ensures var v := Happen(w, e, sector); v.board == State() && v.guest == guest' && v.assembled == assembled'
    {
      hide Command, Pushed, Bit;
      guest', assembled' := guest, assembled;
      match e {
        case Press(key) => kb.Push(key);
        case Look =>
          var s := Read(sector);
          if s.dataFlag {
            guest' := Saw;
          }
        case AskLow(data) =>
          Write(data, sector);
          guest' := AskedLow;
        case ReadLow =>
          var s := Read(sector);
          guest' := HasLow(s.nibble);
        case AskHigh(data) =>
          Write(data, sector);
          guest' := AskedHigh(if guest.HasLow? then guest.low else 0);
        case ReadHigh =>
          var s := Read(sector);
          var key: int := 16 * s.nibble + (if guest.AskedHigh? then guest.low else 0);
          guest', assembled' := Idle, assembled + [Byte(key)];
        case Issue(data) => Write(data, sector);
        case Reset(data) =>
          Write(data, sector);
          assembled' := [];
      }
    }

    /** Any interleaving of keys and driver accesses from power on, and then a look at the status: whenever
        the driver is idle, it has assembled the keys accepted since the last reset but for those that are
        queued; and the status shows that keys are queued exactly while the mask is on. */
    method ServeAll(events: seq<(Event, byte)>, sector: byte)
      returns (guest: Guest, assembled: seq<byte>, status: Status)
      requires Valid() && State() == Start().board && Legal(Start(), events)
      modifies this, kb, kb.buf
      ensures Valid()
      ensures var w := After(Start(), events);
        && w.board == State() && w.guest == guest && w.assembled == assembled
        && (guest.Idle? ==> w.accepted == assembled + Queue(State().kb))
        && (status.dataFlag <==> w.toggles % 2 == 0 && Queue(State().kb) != [])
        && (status.overflow <==> w.toggles % 2 == 0 && w.missed)
        && (status.ack <==> w.commands % 2 == 1)
    {
      hide Happen, Enabled;
      guest, assembled := Idle, [];
      ghost var w := Start();
      for i := 0 to |events|
        invariant Valid() && w.board == State() && w.guest == guest && w.assembled == assembled
        invariant Legal(w, events[i..]) && After(w, events[i..]) == After(Start(), events)
      {
        assert events[i..][1..] == events[i + 1..];
        ghost var v := Happen(w, events[i].0, events[i].1);
        guest, assembled := Serve(events[i].0, events[i].1, guest, assembled, w);
        w := v;
      }
      Handshake(events);
      StatusShows(events, sector);
      status := Read(sector);
    }
  }
}
