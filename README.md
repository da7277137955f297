# SerialIO transport model

A Dafny model of `SerialIO`, the serial-port transport of the `cob_light`
package of cob_driver. `SerialIO` opens a character device, configures its
line settings, and writes raw byte buffers to the light's microcontroller.
Producers enqueue batches of buffers. A worker thread pops them and writes
them one by one.

The model has four modules:

- `IoTypes` (types.dfy): bytes, `Option`, the write unit `IoData` (`ioData_t`: a buffer and a length) and `Batch`, a sequence of them.
- `Baud` (baud.dfy): `getBaudFromInt` as a total function onto an enumerated datatype of the termios speed constants `B0` … `B230400`, with its inverse `Rate`.
- `OutboundQueue` (queue.dfy): the outbound queue `_oQueue` as a class holding a sequence of batches. The queue class is declared in a header that is not part of this model. The FIFO behaviour of `push` and `wait_pop` is therefore an assumption, written as the contracts of `BatchQueue.Push` and `BatchQueue.WaitPop`.
- `SerialPort` (serial_io.dfy): the class `SerialIO` with the fields `_fd` (`fd`, `-1` = `Closed`), `_device_string`, `_baudrate`, `port_settings` and `_oQueue`. It models `openPort`, `closePort`, `isOpen`, `recover`, both `sendData` overloads, `readData`, both `enqueueData` overloads, one iteration of `run`, and the `run` loop cut to a given number of iterations.

The operating system is not modelled. The descriptor returned by open(2) is a parameter, `osFd`. What write(2) returns is a function parameter, `write`. What select(2) and read(2) report are parameters of `ReadData`. The calls to open, tcsetattr, write, close, usleep and tcflush are appended in order to the ghost trace `log`, and the contracts state that trace exactly. The select(2) and read(2) calls of `readData` are not logged. The cfsetospeed/cfsetispeed calls are not logged either: their effect is recorded in the `Termios` value that `openPort` builds.

`recover` returns `bool`, evidently to report whether reopening worked. It tests `openPort`'s result against 0, while a failed open(2) returns -1, which `openPort` stores and returns (serialIO.cpp:90, 96, 201) and which is the closed sentinel (serialIO.cpp:185). The model reproduces this as written and adds a corrected version (see Findings). `openPort` stores and returns whatever open(2) returned, unchecked; a failed open stores `-1`, so `IsOpen()` is false.

## Model

| member | source | states |
|---|---|---|
| `Baud.BaudFromInt` | cob_light/common/src/serialIO.cpp:212-240 | each of the 18 listed rates maps to the constant standing for that very rate; every other integer maps to `B230400` (a clamp, never an error) |
| `Baud.Rate` | cob_light/common/src/serialIO.cpp:217-234 | every speed constant stands for one of the listed rates |
| `OutboundQueue.BatchQueue.Push` | cob_light/common/src/serialIO.cpp:169 | (assumed queue behaviour) `push` appends the batch at the tail |
| `OutboundQueue.BatchQueue.WaitPop` | cob_light/common/src/serialIO.cpp:160 | (assumed queue behaviour) `wait_pop` removes and returns the head batch; on an empty queue the worker would block, so nothing is taken |
| `OutboundQueue.FlattenAppend` | cob_light/common/src/serialIO.cpp:158-162 | the buffers of two queues drained one after the other are those of the first, then those of the second |
| `OutboundQueue.FlattenPrefixStep` | cob_light/common/src/serialIO.cpp:158-162 | draining one more batch appends exactly that batch's buffers, in their order |
| `SerialPort.Sends` | cob_light/common/src/serialIO.cpp:161-162 | sending a batch through the guarded send path gives one write per buffer on an open port and none on a closed one |
| `SerialPort.SendsAt` | cob_light/common/src/serialIO.cpp:161-162 | on an open port, write number i is the write of buffer i with its own length: index order within a batch |
| `SerialPort.SendsAppend` | cob_light/common/src/serialIO.cpp:158-162 | the writes of two batches sent one after the other are the writes of their concatenation |
| `SerialPort.SendsPrefixStep` | cob_light/common/src/serialIO.cpp:158-164 | one more worker iteration appends the next batch's writes after those of all earlier batches |
| `SerialPort.CloseEvents` | cob_light/common/src/serialIO.cpp:191-195 | `closePort` calls close(2) exactly when the port is open |
| `SerialPort.Canonical` | cob_light/common/src/serialIO.cpp:82-92 | the settings `openPort` builds: all flags zeroed except 8 data bits, receiver enabled and modem lines ignored in `c_cflag`; `VMIN` 1, `VTIME` 5; input and output speed both the mapped speed |
| `SerialPort.SerialIO.Valid` | cob_light/common/src/serialIO.cpp:76-96 | the descriptor is a real one or the sentinel -1; an open port's settings carry, in both directions, the speed mapped from the stored rate |
| `SerialPort.SerialIO.IsOpen` | cob_light/common/src/serialIO.cpp:183-186 | `isOpen`: under the invariant, the port counts as open exactly when it holds a real (non-negative) descriptor |
| `SerialPort.SerialIO.constructor` | cob_light/common/src/serialIO.cpp:62-65 | a new object is closed, with device `""`, rate 9600, an empty queue and no system calls made |
| `SerialPort.SerialIO.OpenPort` | cob_light/common/src/serialIO.cpp:74-97 | while open: returns the current descriptor and changes nothing. From closed: stores path and rate whatever open(2) returns, stores and returns that result unchecked, builds the canonical settings from the mapped speed and applies them. `IsOpen()` then holds exactly when the open succeeded |
| `SerialPort.SerialIO.ClosePort` | cob_light/common/src/serialIO.cpp:189-196 | always leaves `fd == -1`, so `IsOpen()` is false; closes the descriptor once if open; when already closed nothing at all changes, so closing is idempotent |
| `SerialPort.SerialIO.SendData` | cob_light/common/src/serialIO.cpp:110-117 | closed port: returns -1 and writes nothing. Open port: exactly one write of the given buffer and length, whose result is returned |
| `SerialPort.SerialIO.SendString` | cob_light/common/src/serialIO.cpp:100-107 | the same, for a string written with its own length |
| `SerialPort.SerialIO.ReadData` | cob_light/common/src/serialIO.cpp:120-136 | callers may ask for at most 32 bytes. On timeout: returns -1 and leaves `value` unchanged. Otherwise: `value` becomes the bytes read and their count, at most `nBytes`, is returned |
| `SerialPort.SerialIO.EnqueueBatch` | cob_light/common/src/serialIO.cpp:167-170 | pushes the given batch unchanged; no state of the port and no system call changes |
| `SerialPort.SerialIO.EnqueueData` | cob_light/common/src/serialIO.cpp:172-180 | pushes exactly one batch holding the single element `{buf, len}`; performs no I/O |
| `SerialPort.SerialIO.RunStep` | cob_light/common/src/serialIO.cpp:160-162 | pops the head batch and sends every element in index order 0..size-1, each through the guarded send path; on an empty queue nothing happens |
| `SerialPort.SerialIO.Run` | cob_light/common/src/serialIO.cpp:154-165 | after n iterations the first n batches have left the queue and every buffer in them has been sent: FIFO across batches, in order within a batch |
| `SerialPort.SerialIO.Recover` | cob_light/common/src/serialIO.cpp:198-209 | closes, then reopens with the stored device and rate; settles 50 ms and flushes, and reports true, exactly when `openPort` returned non-zero. So a failed open (-1) reports true with the port closed. The settings are rebuilt from the stored rate even when the open fails |
| `SerialPort.SerialIO.RecoverChecked` | cob_light/common/src/serialIO.cpp:198-209 | corrected recovery: reports true exactly when the port is open after reopening, and settles and flushes only then |
| `SerialPort.RecoverOnMissingDevice` | cob_light/common/src/serialIO.cpp:200-205 | a device that cannot be opened: `recover` reports success and the port is left closed |
| `SerialPort.RecoverCheckedOnMissingDevice` | cob_light/common/src/serialIO.cpp:200-208 | the same device with the corrected recovery: failure reported, port closed |
| `SerialPort.EndToEnd` | cob_light/common/src/serialIO.cpp:154-180 | open at 9600 baud, enqueue bytes {1, 2}, run one iteration: the device sees the open, the canonical 9600-baud settings and exactly one write of those two bytes, and the queue is empty |

## Left out

- `start`, `stop` and the `boost::thread` running `run`: thread creation, interruption and joining are concurrency and are not modelled. The destructor is `stop` followed by `closePort`; its closing part is `ClosePort`.
- The `boost::mutex` taken by `sendData` and `readData`: there is no concurrency in the model, so mutual exclusion is not stated.
- The pacing of `run` (`ros::Rate` and `r.sleep()`): timing is not modelled. `Run` models the endless loop as a bounded number of iterations. It stops where `wait_pop` would block on an empty queue.
- The internals of the queue class, including blocking and waking a consumer: the header that declares it is not part of this model. Only FIFO push and pop are assumed.
- SerialPort.SerialIO.EnqueueData, SerialPort.SerialIO.EnqueueBatch, IoTypes.IoData: the model copies the bytes into the queue at enqueue time. The source queues a `const char*` pointer whose bytes write(2) reads only when the worker sends them. Aliasing, changes the producer makes to the buffer after enqueueing, and buffers freed before the send are not captured. `EndToEnd`'s write of exactly [1, 2] holds only while the producer keeps that buffer alive and unchanged until the send.
- The `bool` results of both `enqueueData` overloads: they have no `return` statement, so the value is undefined in C++.
- The termios struct beyond the fields `openPort` writes: `Termios` records those fields and both speeds; the open flags `O_RDWR | O_NONBLOCK` and `TCSANOW` are fixed and not recorded. The results of `cfsetospeed`, `cfsetispeed`, `tcsetattr` and `tcflush` are ignored by the source and not modelled.
- SerialPort.SerialIO.SendData: write(2) is modelled as a function of descriptor, buffer and length, so two identical writes return the same value. The trace records the write requested, not how many bytes the device took.
- SerialPort.SerialIO.ReadData: select(2) reporting an error and read(2) failing are not modelled. On a failed read the source builds a string of length `(size_t)-1`, which is undefined behaviour. The bytes read are an input, and reads are not recorded in the trace. Nor does the model capture that `readData` does not check `_fd`: on a closed port the source calls `FD_SET(-1, …)`, `select` and `read` on descriptor -1, which is undefined behaviour. The model ignores the descriptor, so on a closed port `selected` and `received` are unconstrained and a closed port can deliver bytes.
- Integer widths: `int` descriptors and rates and `size_t` lengths are unbounded. The `size_t` value `-1` that `readData` returns on a timeout is modelled as the `int` -1 it becomes.

## Findings

| source | as written | input that shows it | evidently intended | confidence | as-written member | corrected member |
|---|---|---|---|---|---|---|
| cob_light/common/src/serialIO.cpp:201 | `recover` tests the descriptor returned by `openPort` for truthiness | the device cannot be opened, so open(2) returns -1: `recover` returns true and the port is closed. A reopen that yields descriptor 0 returns false although the port is open | report success exactly when the reopened port is open | high; not executed | `SerialPort.RecoverOnMissingDevice` | `SerialPort.SerialIO.RecoverChecked` |
