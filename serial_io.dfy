/** The port handle, send/read paths and worker step of `SerialIO`.

    The operating system is not part of the model. The descriptor returned
    by open(2), the value returned by write(2) and the outcome of select(2)
    and read(2) are inputs. The calls to open, tcsetattr, write, close,
    usleep and tcflush are appended, in order, to the ghost trace `log`;
    select and read are not logged, and cfsetospeed/cfsetispeed are folded
    into the recorded `Termios`. */
module SerialPort {
  import opened IoTypes
  import opened Baud
  import opened OutboundQueue

  /** The descriptor value that marks the port as closed. */
  const Closed: int := -1

  /** Capacity of the scratch buffer `char buffer[32]` of `readData`. */
  const ReadBufferSize: nat := 32

  /** The settling delay `recover` sleeps after reopening, in microseconds. */
  const SettleMicros: nat := 50000

  /** The bits `openPort` sets in `c_cflag`. */
  datatype ControlFlag = CS8 | CREAD | CLOCAL

  /** The fields of `port_settings` that `openPort` writes. */
  datatype Termios = Termios(
    iflag: int, oflag: int, cflag: set<ControlFlag>, lflag: int,
    vmin: int, vtime: int, ispeed: Speed, ospeed: Speed)

  /** The settings `openPort` builds: zeroed, 8 data bits with the receiver
      enabled and modem lines ignored, no input, output or local processing,
      reads that wait for one byte or half a second, both speeds `speed`. */
  function Canonical(speed: Speed): (t: Termios)
    ensures t.ispeed == speed && t.ospeed == speed
    ensures t.cflag == {CS8, CREAD, CLOCAL} && t.iflag == 0 && t.oflag == 0 && t.lflag == 0
    ensures t.vmin == 1 && t.vtime == 5
  {
    Termios(0, 0, {CS8, CREAD, CLOCAL}, 0, 1, 5, speed, speed)
  }

  /** One call into the operating system. */
  datatype Event =
    | OpenCall(path: string, result: int)        // open(path, O_RDWR | O_NONBLOCK)
    | SetAttr(fd: int, settings: Termios)        // tcsetattr(fd, TCSANOW, &settings)
    | WriteCall(fd: int, data: seq<Byte>, len: nat)
    | CloseCall(fd: int)
    | Sleep(micros: nat)                         // usleep(micros)
    | Flush(fd: int)                             // tcflush(fd, TCIOFLUSH)

  /** What write(2) returns for a descriptor, a buffer and a byte count. */
  type WriteFn = (int, seq<Byte>, nat) -> int

  /** The trace of sending every buffer of `batch`, in index order, through
      `sendData` on descriptor `fd`: one write each, or none at all when the
      port is closed. */
  function Sends(fd: int, batch: Batch): (log: seq<Event>)
    ensures fd == Closed ==> log == []
    ensures fd != Closed ==> |log| == |batch|
  {
    if fd == Closed || batch == [] then []
    else [WriteCall(fd, batch[0].buf, batch[0].len)] + Sends(fd, batch[1..])
  }

  /** On an open port, write number i of the trace is the one of buffer i. */
  lemma {:induction false} SendsAt(fd: int, batch: Batch, i: nat)
    requires fd != Closed && i < |batch|
    ensures Sends(fd, batch)[i] == WriteCall(fd, batch[i].buf, batch[i].len)
  {
    if i > 0 {
      SendsAt(fd, batch[1..], i - 1);
    }
  }

  /** Sending two batches one after the other leaves the trace of sending
      their concatenation. */
  lemma {:induction false} SendsAppend(fd: int, a: Batch, b: Batch)
    ensures Sends(fd, a + b) == Sends(fd, a) + Sends(fd, b)
  {
    if fd != Closed {
      if a == [] {
        assert a + b == b;
      } else {
        assert (a + b)[1..] == a[1..] + b;
        SendsAppend(fd, a[1..], b);
      }
    }
  }

  /** Draining one more batch of `q` adds that batch's sends to the trace. */
  lemma SendsPrefixStep(fd: int, q: seq<Batch>, k: nat)
    requires k < |q|
    ensures Sends(fd, Flatten(q[..k + 1])) == Sends(fd, Flatten(q[..k])) + Sends(fd, q[k])
  {
    FlattenPrefixStep(q, k);
    SendsAppend(fd, Flatten(q[..k]), q[k]);
  }

  /** The trace of `closePort` on descriptor `fd`. */
  function CloseEvents(fd: int): (log: seq<Event>)
    ensures fd == Closed <==> log == []
  {
    if fd != Closed then [CloseCall(fd)] else []
  }

  class SerialIO {
    var fd: int
    var deviceString: string
    var baudRate: int
    /** `port_settings`; `None` until the first open from the closed state. */
    var portSettings: Option<Termios>
    const oQueue: BatchQueue
    /** The logged calls into the operating system, oldest first. */
    ghost var log: seq<Event>

    /** The descriptor is a real one or the sentinel, and an open port runs
        with the settings built from the stored rate. */
    ghost predicate Valid()
      reads this
      ensures Valid() && fd != Closed ==>
                portSettings.Some? && portSettings.value.ispeed == BaudFromInt(baudRate)
                && portSettings.value.ospeed == BaudFromInt(baudRate)
    {
      && fd >= Closed
      && (fd != Closed ==> portSettings == Some(Canonical(BaudFromInt(baudRate))))
    }

    constructor ()
      ensures Valid() && fd == Closed && deviceString == "" && baudRate == 9600
      ensures portSettings == None && log == []
      ensures fresh(oQueue) && oQueue.items == []
    {
      fd := Closed;
      deviceString := "";
      baudRate := 9600;
      portSettings := None;
      oQueue := new BatchQueue();
      log := [];
    }

    /** `isOpen`. */
    predicate IsOpen()
      reads this
      ensures Valid() ==> (IsOpen() <==> fd >= 0)
    {
      fd != Closed
    }

    /** `openPort`. When the port is open it returns the descriptor and
        changes nothing. Otherwise it records the path and rate first, then
        opens the device, whose result `osFd` it stores and returns without
        checking it, and applies the settings even to a failed descriptor. */
    method OpenPort(path: string, rate: int, osFd: int) returns (r: int)
      requires Valid()
      requires osFd >= Closed  // open(2) yields a descriptor or -1
      modifies this
      ensures Valid()
      ensures old(fd) != Closed ==> r == old(fd) && unchanged(this)
      ensures old(fd) == Closed ==>
                && r == osFd && fd == osFd
                && deviceString == path && baudRate == rate
                && portSettings == Some(Canonical(BaudFromInt(rate)))
                && log == old(log) + [OpenCall(path, osFd), SetAttr(osFd, Canonical(BaudFromInt(rate)))]
      ensures old(fd) == Closed ==> (IsOpen() <==> osFd != Closed)
    {
      if fd != Closed {
        return fd;
      }
      deviceString := path;
      baudRate := rate;
      var baud := BaudFromInt(rate);
      var settings := Canonical(baud);
      portSettings := Some(settings);
      fd := osFd;
      log := log + [OpenCall(path, osFd)];
      log := log + [SetAttr(fd, settings)];
      r := fd;
    }

    /** `closePort`: always leaves the port closed, and does nothing at all
        when it already is, so closing twice is closing once. */
    method ClosePort()
      requires Valid()
      modifies this
      ensures Valid() && fd == Closed && !IsOpen()
      ensures deviceString == old(deviceString) && baudRate == old(baudRate)
      ensures portSettings == old(portSettings)
      ensures log == old(log) + CloseEvents(old(fd))
      ensures old(fd) == Closed ==> unchanged(this)
    {
      if fd != Closed {
        log := log + [CloseCall(fd)];
        fd := Closed;
      }
    }

    /** `sendData(const char*, size_t)`: -1 and no write on a closed port,
        otherwise exactly one write, whose result it returns. */
    method SendData(data: seq<Byte>, len: nat, write: WriteFn) returns (wrote: int)
      modifies this`log
      ensures fd == Closed ==> wrote == -1 && log == old(log)
      ensures fd != Closed ==>
                wrote == write(fd, data, len) && log == old(log) + [WriteCall(fd, data, len)]
    {
      wrote := -1;
      if fd != Closed {
        wrote := write(fd, data, len);
        log := log + [WriteCall(fd, data, len)];
      }
    }

    /** `sendData(std::string)`: the same, with the string's own length. */
    method SendString(value: seq<Byte>, write: WriteFn) returns (wrote: int)
      modifies this`log
      ensures fd == Closed ==> wrote == -1 && log == old(log)
      ensures fd != Closed ==>
                wrote == write(fd, value, |value|) && log == old(log) + [WriteCall(fd, value, |value|)]
    {
      wrote := SendData(value, |value|, write);
    }

    /** `readData`. `selected` is what select(2) reports within the 100 ms
        timeout (0 when it elapsed) and `received` what read(2) then
        delivers. On a timeout it returns -1 and leaves `value` as it was;
        otherwise `value` becomes the bytes read and their count is
        returned, never more than `nBytes`. */
    method ReadData(value: seq<Byte>, nBytes: nat, selected: int, received: seq<Byte>)
      returns (rec: int, value': seq<Byte>)
      requires nBytes <= ReadBufferSize  // the scratch buffer holds 32 bytes
      requires |received| <= nBytes     // read(2) delivers at most nBytes
      ensures selected == 0 ==> rec == -1 && value' == value
      ensures selected != 0 ==> rec == |received| && value' == received
      ensures rec <= nBytes
    {
      rec := -1;
      value' := value;
      if selected != 0 {
        var buffer := received;
        rec := |buffer|;
        value' := buffer[..rec];
      }
    }

    /** `enqueueData(std::vector<ioData_t>)`: pushes the batch as given and
        performs no I/O. */
    method EnqueueBatch(data: Batch)
      modifies oQueue
      ensures oQueue.items == old(oQueue.items) + [data]
    {
      oQueue.Push(data);
    }

    /** `enqueueData(const char*, size_t)`: pushes one batch holding the one
        buffer `{buf, len}` and performs no I/O. */
    method EnqueueData(buf: seq<Byte>, len: nat)
      modifies oQueue
      ensures oQueue.items == old(oQueue.items) + [[IoData(buf, len)]]
    {
      var vec := [IoData(buf, len)];
      oQueue.Push(vec);
    }

    /** One iteration of `run`: pops the head batch and sends its buffers
        in index order; an empty queue is where the worker would block. */
    method RunStep(write: WriteFn) returns (popped: Option<Batch>)
      modifies this`log, oQueue
      ensures old(oQueue.items) == [] ==>
                popped == None && oQueue.items == [] && log == old(log)
      ensures old(oQueue.items) != [] ==>
                && popped == Some(old(oQueue.items)[0])
                && oQueue.items == old(oQueue.items)[1..]
                && log == old(log) + Sends(fd, old(oQueue.items)[0])
    {
      popped := oQueue.WaitPop();
      if popped.Some? {
        var data := popped.value;
        var i := 0;
        while i < |data|
          invariant 0 <= i <= |data|
          invariant oQueue.items == old(oQueue.items)[1..]
          invariant log == old(log) + Sends(fd, data[..i])
        {
          // the worker ignores what each send returns
          var wrote := SendData(data[i].buf, data[i].len, write);
          assert data[..i + 1] == data[..i] + [data[i]];
          SendsAppend(fd, data[..i], [data[i]]);
          i := i + 1;
        }
        assert data[..i] == data;
      }
    }

    /** The `while (true)` loop of `run`, cut to `iterations` iterations and
        stopping early where `wait_pop` would block: the batches leave the
        queue oldest first and every buffer is sent in submission order. */
    method Run(iterations: nat, write: WriteFn)
      modifies this`log, oQueue
      ensures var q := old(oQueue.items);
              var n := if iterations < |q| then iterations else |q|;
              oQueue.items == q[n..] && log == old(log) + Sends(fd, Flatten(q[..n]))
    {
      ghost var q := oQueue.items;
      var k := 0;
      while k < iterations
        invariant k <= iterations && k <= |q|
        invariant oQueue.items == q[k..]
        invariant log == old(log) + Sends(fd, Flatten(q[..k]))
      {
        ghost var before := log;
        var popped := RunStep(write);
        if popped.None? {
          assert |q| == k;
          break;
        }
        assert k < |q| && q[k..][0] == q[k];
        assert q[k..][1..] == q[k + 1..];
        assert log == before + Sends(fd, q[k]);
        SendsPrefixStep(fd, q, k);
        k := k + 1;
      }
      assert k == (if iterations < |q| then iterations else |q|);
    }

    /** `recover`, as written: closes, reopens with the stored path and
        rate, and on a truthy open result settles and flushes. Since it
        tests the result against 0, a failed open (-1) reports success while
        the port stays closed. */
    method Recover(osFd: int) returns (ok: bool)
      requires Valid()
      requires osFd >= Closed  // open(2) yields a descriptor or -1
      modifies this
      ensures Valid()
      ensures fd == osFd && deviceString == old(deviceString) && baudRate == old(baudRate)
      ensures portSettings == Some(Canonical(BaudFromInt(old(baudRate))))
      ensures ok <==> osFd != 0
      ensures log == old(log) + CloseEvents(old(fd))
                + [OpenCall(old(deviceString), osFd), SetAttr(osFd, Canonical(BaudFromInt(old(baudRate))))]
                + (if osFd != 0 then [Sleep(SettleMicros), Flush(osFd)] else [])
    {
      ClosePort();
      var r := OpenPort(deviceString, baudRate, osFd);
      if r != 0 {
        log := log + [Sleep(SettleMicros)];
        log := log + [Flush(fd)];
        ok := true;
      } else {
        ok := false;
      }
    }

    /** `recover` as evidently intended: it reports success exactly when
        the reopened port is open, and settles and flushes only then. */
    method RecoverChecked(osFd: int) returns (ok: bool)
      requires Valid()
      requires osFd >= Closed  // open(2) yields a descriptor or -1
      modifies this
      ensures Valid()
      ensures fd == osFd && deviceString == old(deviceString) && baudRate == old(baudRate)
      ensures portSettings == Some(Canonical(BaudFromInt(old(baudRate))))
      ensures ok <==> IsOpen()
      ensures log == old(log) + CloseEvents(old(fd))
                + [OpenCall(old(deviceString), osFd), SetAttr(osFd, Canonical(BaudFromInt(old(baudRate))))]
                + (if osFd != Closed then [Sleep(SettleMicros), Flush(osFd)] else [])
    {
      ClosePort();
      var r := OpenPort(deviceString, baudRate, osFd);
      if r != Closed {
        log := log + [Sleep(SettleMicros)];
        log := log + [Flush(fd)];
        ok := true;
      } else {
        ok := false;
      }
    }
  }

  /** A device that cannot be opened: `recover` as written reports success
      although the port is left closed. */
  method RecoverOnMissingDevice() returns (ok: bool, open: bool)
    ensures ok && !open
  {
    var port := new SerialIO();
    ok := port.Recover(Closed);
    open := port.IsOpen();
  }

  /** The same device with the corrected recovery: failure, port closed. */
  method RecoverCheckedOnMissingDevice() returns (ok: bool, open: bool)
    ensures !ok && !open
  {
    var port := new SerialIO();
    ok := port.RecoverChecked(Closed);
    open := port.IsOpen();
  }

  /** Construct, open a device at 9600 baud, enqueue the two bytes 1 and 2
      and run one worker iteration: the device sees exactly that one write,
      and the queue is drained. */
  method EndToEnd(osFd: nat, write: WriteFn) returns (wasOpened: bool, left: nat, ghost trace: seq<Event>)
    ensures wasOpened && left == 0
    ensures trace == [OpenCall("/dev/mock", osFd), SetAttr(osFd, Canonical(B9600)),
                      WriteCall(osFd, [1, 2], 2)]
  {
    var port := new SerialIO();
    var r := port.OpenPort("/dev/mock", 9600, osFd);
    wasOpened := port.IsOpen();
    port.EnqueueData([1, 2], 2);
    var popped := port.RunStep(write);
    left := |port.oQueue.items|;
    trace := port.log;
  }
}
