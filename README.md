# Seabee 3: thruster allocation, the ContourArray wire format and the image-server cursor

A Dafny model of three pieces of the Seabee 3 underwater-vehicle software,
with proofs of what each one does.

- **`Seabee3Driver`** (`seabee3_driver.dfy`) models the vehicle driver's thruster allocation.
  - `updateMotorCntlMsg` routes a logical axis onto a pair of motor slots of a fixed-size
    actuator message. Absolute strafe, depth and yaw are redirected to their body-relative
    forms; depth is negated.
  - It adds `direction * value` into both slots, passes the pair through the proportional
    cap with limit 100, and sets both mask bits.
  - `resetMotorCntlMsg` zeroes the message.
  - `pidStep` holds the cached command and allocates speed, strafe, depth and yaw in that order.
    The first tick only records the time.
  - Also modelled: `ThrusterArrayCfg::at` (a 1-based accessor that grows its vector), the
    Twist and Vector3 scaling operators, the command callback, and the driver's construction
    from its parameters.
  - The actuator message is a class over two `array<int>`s. The driver is a class whose
    methods follow the source statement by statement: the recursive redirect, the in-place
    reset loop, the tick.
  - Each method is proved against the pure specification functions `Allocate` and `TickValue`.
- **`ContourArrayMsg`** (`contour_array.dfy`) models the generated Python class for the
  `seabee3_msgs/ContourArray` message, in the ROS 1 serialization format.
  - Every array and string has a little-endian uint32 length prefix. Each point is two
    4-byte words.
  - `Encode` is the specification of the bytes written; `Decode` is the specification of the
    reader.
  - The loop-based `Serialize` and `Deserialize` methods are proved against them.
  - `Deserialize` advances the same `start`/`end` offsets as the source, and reads with
    Python's clamped slice.
  - Proved about the specification: the round trip (with any trailing bytes), soundness of a
    successful decode, truncated input failing, and the exact serialized length.
- **`ImageServer`** (`image_server.dfy`) models the image-server node.
  - The model assumes a 64-bit build: `current_frame_` is taken as a 32-bit `unsigned int`
    and the cache size as a 64-bit `size_t`. Both wrap-arounds are written out.
  - `Next`, `Prev`, `Reconfigure` and `Spin` are the pure transitions. The class
    `ImageServerNode` holds the node's fields, and its methods are proved to perform these
    transitions.
  - Proved: the two steps stay in the cache and undo each other when looping; looping
    iterates cyclically and non-looping iterates saturate; the switches are edge-triggered,
    with next taking priority; a publishing spin keeps the frame without auto-advance and
    otherwise steps it by `Next` (direction 0) or `Prev` (direction 1); a looping slideshow
    shows frame `current + k` forward, or `current - k` backward (mod the size), after `k` spins.
  - Also shown: the unsigned-underflow behaviour on an empty cache, and that a frame past
    the end of the cache can never again be published by spinning.
- `wrappers.dfy` holds the `Option`/`Result`/`Outcome` types shared by the three modules.

### Behaviour of the code worth noting

- **Cap order.** The cap is applied per `updateMotorCntlMsg` call (seabee3_driver.cpp:352),
  so a yaw contribution accumulates onto the strafe pair *after* the strafe contribution has
  already been capped, not onto the raw sum. `TickSlots` and `StrafeThenYawAccumulates`
  state that order.
- **Mask bits.** Both mask bits are set on every mapped call. This includes a zero
  magnitude, as the code does (seabee3_driver.cpp:357-358).
- **Integer conversion.** The accumulated pair is converted to `int` before the cap sees it
  (seabee3_driver.cpp:346-350). The cap therefore works on integers.

## Model

| member | source | states |
|---|---|---|
| Seabee3Driver.ScaleVector3 | cturtle/seabee3_driver/src/seabee3_driver.cpp:52-65 | `v * scale` (and `v *= scale` without aliasing): scaling by 1 keeps the vector, scaling by 0 or scaling the zero vector gives the zero vector |
| Seabee3Driver.ScaleTwist | cturtle/seabee3_driver/src/seabee3_driver.cpp:67-75 | `twist * scale`: scaling by 1 keeps the twist, scaling by 0 or scaling the zero twist gives the zero twist |
| Seabee3Driver.ScaleTwistComponents | cturtle/seabee3_driver/src/seabee3_driver.cpp:52-75 | a component-wise restatement of `ScaleTwist` (operator* scales all six components); the algebraic content is in `ScaleTwistCompose` |
| Seabee3Driver.ScaleTwistCompose | cturtle/seabee3_driver/src/seabee3_driver.cpp:52-75 | scaling by 1 is the identity; scaling by a then b is scaling by a*b |
| Seabee3Driver.Trunc | cturtle/seabee3_driver/src/seabee3_driver.cpp:349-350 | the double-to-int conversion rounds toward zero: the result lies within 1 of the input, on the zero side |
| Seabee3Driver.TruncIntegralAccumulate | cturtle/seabee3_driver/src/seabee3_driver.cpp:349-350 | with an integral gain, the accumulated slot is exactly old + gain * value |
| Seabee3Driver.Grown | cturtle/seabee3_driver/src/seabee3_driver.cpp:85-92 | `at(i)` makes the vector i long only when it was shorter, keeps existing entries, fills with 0.0 |
| Seabee3Driver.GrownKeepsLongVectors | cturtle/seabee3_driver/src/seabee3_driver.cpp:85-92 | a vector that already has i entries is left unchanged by `at(i)` |
| Seabee3Driver.GrownTwoWrites | cturtle/seabee3_driver/src/seabee3_driver.cpp:232-248 | writing `at(1)` then `at(2)` of an empty table gives exactly the two values |
| Seabee3Driver.ThrusterArrayCfg.constructor | cturtle/seabee3_driver/src/seabee3_driver.cpp:82-84 | a new direction table is empty |
| Seabee3Driver.ThrusterArrayCfg.At | cturtle/seabee3_driver/src/seabee3_driver.cpp:85-92 | the vector grows as `Grown` says and the result is entry i-1, the old one if it existed |
| Seabee3Driver.ThrusterArrayCfg.SetAt | cturtle/seabee3_driver/src/seabee3_driver.cpp:85-92 | writing through `at(i)`: the grown vector with entry i-1 replaced |
| Seabee3Driver.DefaultConfig | cturtle/seabee3_driver/src/seabee3_driver.cpp:232-255 | the all-defaults configuration: every thruster table is [1, 1] except yaw's [-1, 1]; the axis directions are +1 for speed and strafe and -1 for depth, roll, pitch and yaw |
| Seabee3Driver.DefaultGainsExact | cturtle/seabee3_driver/src/seabee3_driver.cpp:232-249 | under the default direction table every gain is +1 except yaw's first thruster (-1), so the slot before capping is exactly old + value, or old - value for that thruster |
| Seabee3Driver.ZeroValue | cturtle/seabee3_driver/src/seabee3_driver.cpp:361-368 | every one of the controller slots and mask bits is 0 |
| Seabee3Driver.Resolve | cturtle/seabee3_driver/src/seabee3_driver.cpp:293-342 | a routed axis lands on two distinct in-range motor slots and one of the six configured axes |
| Seabee3Driver.PreCap | cturtle/seabee3_driver/src/seabee3_driver.cpp:348-349 | the slot after `+= scale * value`, converted to `int`, lies within 1 of the exact real sum; a zero gain or value leaves the old slot value |
| Seabee3Driver.WritePair | cturtle/seabee3_driver/src/seabee3_driver.cpp:346-358 | writing one capped pair keeps the message's fixed size |
| Seabee3Driver.Allocate | cturtle/seabee3_driver/src/seabee3_driver.cpp:286-359 | an allocation keeps the message's fixed size |
| Seabee3Driver.AllocateRedirects | cturtle/seabee3_driver/src/seabee3_driver.cpp:301-335 | strafe acts as strafe_rel and yaw as yaw_rel with the same value; depth acts as depth_rel with the value negated |
| Seabee3Driver.AllocateUnmappedNoop | cturtle/seabee3_driver/src/seabee3_driver.cpp:329-344 | pitch, speed_rel, roll_rel, pitch_rel and unknown ids leave the message unchanged |
| Seabee3Driver.AllocateMapped | cturtle/seabee3_driver/src/seabee3_driver.cpp:346-358 | only the pair's values and mask bits change; both bits become 1; the values are the cap, at limit 100, of old + direction * value |
| Seabee3Driver.SharedPairs | cturtle/seabee3_driver/src/seabee3_driver.cpp:306-341 | strafe_rel and yaw_rel share the strafe pair; depth_rel and roll share the depth pair |
| Seabee3Driver.StrafeThenYawAccumulates | cturtle/seabee3_driver/src/seabee3_driver.cpp:306-341 | a yaw call after a strafe call accumulates onto the values the strafe call left |
| Seabee3Driver.AllocateKeepsInRange | cturtle/seabee3_driver/src/seabee3_driver.cpp:346-358 | IF the cap keeps values within ±limit (an assumption), an allocation keeps every slot within ±100 and every mask bit 0 or 1 |
| Seabee3Driver.AxisValue | cturtle/seabee3_driver/src/seabee3_driver.cpp:456-459 | an axis's motor value (`axis_dir * component`, converted to `int` when passed at cpp:476-481) lies within 1 of the product, on the zero side, with its sign |
| Seabee3Driver.TickValue | cturtle/seabee3_driver/src/seabee3_driver.cpp:456-481 | a tick's message has the fixed size |
| Seabee3Driver.TickSlots | cturtle/seabee3_driver/src/seabee3_driver.cpp:428-482 | after a tick exactly the six driven slots are masked, the others are zero, and each pair holds its axis's capped contribution, yaw accumulated onto strafe |
| Seabee3Driver.TickValueSteps | cturtle/seabee3_driver/src/seabee3_driver.cpp:476-481 | unfolds `TickValue` into the four allocations chained from the zero message, in the order speed, strafe, depth, yaw; the slot-by-slot content is in `TickSlots` |
| Seabee3Driver.TickIgnoresRollPitch | cturtle/seabee3_driver/src/seabee3_driver.cpp:456-481 | the tick's message does not depend on the roll and pitch commands |
| Seabee3Driver.TickInRange | cturtle/seabee3_driver/src/seabee3_driver.cpp:456-481 | under the cap assumption, a tick's message is within range |
| Seabee3Driver.MotorCntl.constructor | cturtle/seabee3_driver/src/seabee3_driver.cpp:161 | a fresh message has fixed-size arrays, all zero |
| Seabee3Driver.Driver.constructor | cturtle/seabee3_driver/src/seabee3_driver.cpp:188-271 | each axis's table holds the two parameter values written via `at(1)`/`at(2)`; with every parameter at its default the configuration is `DefaultConfig`; the clock is the sentinel; the message is reset |
| Seabee3Driver.Driver.CmdVelCB | cturtle/seabee3_driver/src/seabee3_driver.cpp:273-276 | the cached command becomes the received twist, and nothing else changes |
| Seabee3Driver.Driver.ResetMotorCntlMsg | cturtle/seabee3_driver/src/seabee3_driver.cpp:361-368 | every motor value and mask bit of the message is 0 |
| Seabee3Driver.Driver.UpdateMotorCntlMsg | cturtle/seabee3_driver/src/seabee3_driver.cpp:286-359 | the message afterwards is `Allocate` of the message before, for every axis and value |
| Seabee3Driver.Driver.AccumulatePair | cturtle/seabee3_driver/src/seabee3_driver.cpp:344-358 | the pair is read, accumulated, capped and written back, both mask bits set |
| Seabee3Driver.Driver.PidStep | cturtle/seabee3_driver/src/seabee3_driver.cpp:417-484 | the first tick changes neither pose nor message; later ticks hold the cached twist and leave `TickValue` of it; the time is recorded |
| Seabee3Driver.Driver.SpinOnce | cturtle/seabee3_driver/src/seabee3_driver.cpp:493-501 | the emitted message is the one the tick left |
| ContourArrayMsg.PackU32 | seabee3_msgs/src/seabee3_msgs/msg/_ContourArray.py:174 | a uint32 packs to four bytes that unpack to it |
| ContourArrayMsg.PackUnpackU32 | seabee3_msgs/src/seabee3_msgs/msg/_ContourArray.py:174 | packing the value of four bytes gives back those bytes |
| ContourArrayMsg.UnpackLittleEndian | seabee3_msgs/src/seabee3_msgs/msg/_ContourArray.py:86 | `_struct_I.unpack` reads the four bytes little-endian: byte i is base-256 digit i of the value |
| ContourArrayMsg.EncodePoints | seabee3_msgs/src/seabee3_msgs/msg/_ContourArray.py:70-72 | each point takes exactly 8 bytes |
| ContourArrayMsg.EncodeContour | seabee3_msgs/src/seabee3_msgs/msg/_ContourArray.py:65-72 | one contour is 4 + name length + 4 + 8 per point bytes: a word holding the name length, the name, then a word holding the point count |
| ContourArrayMsg.EncodeContours | seabee3_msgs/src/seabee3_msgs/msg/_ContourArray.py:64-72 | the contours' bytes are empty exactly when there are no contours |
| ContourArrayMsg.Encode | seabee3_msgs/src/seabee3_msgs/msg/_ContourArray.py:62-72 | the message starts with a word holding the contour count, and is 4 bytes long exactly when there are no contours |
| ContourArrayMsg.EncodePointsAppend | seabee3_msgs/src/seabee3_msgs/msg/_ContourArray.py:70-72 | the points are written in order: encoding a concatenation concatenates the encodings |
| ContourArrayMsg.EncodeContoursAppend | seabee3_msgs/src/seabee3_msgs/msg/_ContourArray.py:64-72 | the contours are written in order, one after another |
| ContourArrayMsg.EncodeLength | seabee3_msgs/src/seabee3_msgs/msg/_ContourArray.py:62-72 | the serialized length is 4 plus, per contour, 4 + name length + 4 + 8 per point |
| ContourArrayMsg.EncodeContoursLength | seabee3_msgs/src/seabee3_msgs/msg/_ContourArray.py:64-72 | the contours' part has the sum of the contour sizes as its length |
| ContourArrayMsg.PySlice | seabee3_msgs/src/seabee3_msgs/msg/_ContourArray.py:86 | `str[a:b]` is the exact slice when in bounds and is clamped to the input's end otherwise |
| ContourArrayMsg.DecodePoints | seabee3_msgs/src/seabee3_msgs/msg/_ContourArray.py:100-106 | reading n points fails exactly when fewer than 8n bytes remain; otherwise it yields n points and consumes exactly 8n bytes |
| ContourArrayMsg.DecodeContour | seabee3_msgs/src/seabee3_msgs/msg/_ContourArray.py:89-106 | fewer than 8 bytes cannot hold a contour; a contour read consumes exactly its size in bytes |
| ContourArrayMsg.DecodeContours | seabee3_msgs/src/seabee3_msgs/msg/_ContourArray.py:88-107 | a complete read yields exactly n contours, an incomplete one fewer; what remains is never longer than the input |
| ContourArrayMsg.Decode | seabee3_msgs/src/seabee3_msgs/msg/_ContourArray.py:82-110 | fewer than 4 bytes raise the underfill error; a successful read yields as many contours as the count word says |
| ContourArrayMsg.DecodeEncodedPoints | seabee3_msgs/src/seabee3_msgs/msg/_ContourArray.py:98-107 | reading n points from their encoding gives them back, leaving the bytes after |
| ContourArrayMsg.DecodeEncodedContour | seabee3_msgs/src/seabee3_msgs/msg/_ContourArray.py:88-108 | reading one contour from its encoding gives it back, leaving the bytes after |
| ContourArrayMsg.DecodeEncodedContours | seabee3_msgs/src/seabee3_msgs/msg/_ContourArray.py:88-108 | reading the contours from their encoding gives them back, complete |
| ContourArrayMsg.DecodeEncode | seabee3_msgs/src/seabee3_msgs/msg/_ContourArray.py:55-108 | deserializing a serialized message gives it back, whatever bytes follow |
| ContourArrayMsg.DecodedPointsAreEncoded | seabee3_msgs/src/seabee3_msgs/msg/_ContourArray.py:98-107 | successfully read points are n points whose encoding is exactly the bytes consumed |
| ContourArrayMsg.DecodedContourIsEncoded | seabee3_msgs/src/seabee3_msgs/msg/_ContourArray.py:88-108 | a contour read successfully is one that fits, and its encoding is exactly the bytes consumed |
| ContourArrayMsg.DecodedContoursAreEncoded | seabee3_msgs/src/seabee3_msgs/msg/_ContourArray.py:88-108 | n contours read successfully fit, and their encoding is exactly the bytes consumed |
| ContourArrayMsg.DecodeSound | seabee3_msgs/src/seabee3_msgs/msg/_ContourArray.py:76-108 | a successful deserialize has read exactly the serialization of its result, at the front of the input |
| ContourArrayMsg.TruncatedInputFails | seabee3_msgs/src/seabee3_msgs/msg/_ContourArray.py:83-110 | any proper prefix of a serialization raises the deserialization error |
| ContourArrayMsg.EncodeInjective | seabee3_msgs/src/seabee3_msgs/msg/_ContourArray.py:55-74 | two messages with the same bytes are the same message |
| ContourArrayMsg.ReadPointStep | seabee3_msgs/src/seabee3_msgs/msg/_ContourArray.py:98-104 | reading 8 bytes at the offset moves one point (x word, then y word) from the unread part to the points read |
| ContourArrayMsg.ReadPointUnderfill | seabee3_msgs/src/seabee3_msgs/msg/_ContourArray.py:102-104 | fewer than 8 bytes left means the next point cannot be read |
| ContourArrayMsg.ContourParts | seabee3_msgs/src/seabee3_msgs/msg/_ContourArray.py:88-97 | a contour at an offset is its length word, that many name bytes, a count word and the points; it is absent when the count word is cut short |
| ContourArrayMsg.ReadContourStep | seabee3_msgs/src/seabee3_msgs/msg/_ContourArray.py:86-105 | reading one contour moves it from the unread part to the contours read |
| ContourArrayMsg.ReadContourUnderfill | seabee3_msgs/src/seabee3_msgs/msg/_ContourArray.py:86-110 | a contour that cannot be read ends decoding, incomplete, after the contours already read |
| ContourArrayMsg.AppendContour | seabee3_msgs/src/seabee3_msgs/msg/_ContourArray.py:64-72 | the bytes one outer iteration writes extend the encoding by exactly one contour |
| ContourArrayMsg.WritePoints | seabee3_msgs/src/seabee3_msgs/msg/_ContourArray.py:70-72 | the inner serialize loop appends the encoding of the points |
| ContourArrayMsg.ReadContour | seabee3_msgs/src/seabee3_msgs/msg/_ContourArray.py:86-105 | one outer deserialize iteration reads the specified contour, or fails exactly when it is absent; the offset advances by 4 + name length + 4 + 8 per point |
| ContourArrayMsg.ReadPoints | seabee3_msgs/src/seabee3_msgs/msg/_ContourArray.py:98-104 | the inner deserialize loop reads the specified points, or fails exactly when they are cut short |
| ContourArrayMsg.ContourArray.constructor | seabee3_msgs/src/seabee3_msgs/msg/_ContourArray.py:41-47 | no argument, or `contours=None`, gives an empty list; otherwise the given list |
| ContourArrayMsg.ContourArray.Serialize | seabee3_msgs/src/seabee3_msgs/msg/_ContourArray.py:55-74 | when every length fits a uint32 the bytes are `Encode` of the contours; otherwise the serialization error |
| ContourArrayMsg.ContourArray.SerializeNumpy | seabee3_msgs/src/seabee3_msgs/msg/_ContourArray.py:113-134 | the same result as `serialize` |
| ContourArrayMsg.ContourArray.Deserialize | seabee3_msgs/src/seabee3_msgs/msg/_ContourArray.py:76-110 | succeeds exactly when `Decode` does, with its contours; on underfill keeps the contours already completed (unchanged if even the count is cut short) |
| ContourArrayMsg.ContourArray.DeserializeNumpy | seabee3_msgs/src/seabee3_msgs/msg/_ContourArray.py:136-172 | the same result and state as `deserialize` |
| ImageServer.Next | diamondback/sandbox/image_server_prototype/include/image_server/image_server.h:110-120 | next frame if one exists, else 0 when looping or unchanged; an empty cache still increments (size_t underflow); stays inside a non-empty cache |
| ImageServer.Prev | diamondback/sandbox/image_server_prototype/include/image_server/image_server.h:122-132 | previous frame if not at 0, else unchanged without looping; looping from frame 0 gives the last frame for a cache of at most 2^32 frames, (size - 1) mod 2^32 for a larger one, and 2^32-1 for an empty cache; stays inside a non-empty cache |
| ImageServer.PrevUndoesNext | diamondback/sandbox/image_server_prototype/include/image_server/image_server.h:110-132 | when looping, a previous step undoes a next step on every frame |
| ImageServer.NextUndoesPrev | diamondback/sandbox/image_server_prototype/include/image_server/image_server.h:110-132 | when looping, a next step undoes a previous step on every frame |
| ImageServer.NextWithin | diamondback/sandbox/image_server_prototype/include/image_server/image_server.h:110-120 | within a cache of at most 2^32 frames the next step has no 32-bit wrap-around |
| ImageServer.AdvanceCycles | diamondback/sandbox/image_server_prototype/include/image_server/image_server.h:110-120 | when looping, k next steps give frame (current + k) mod size |
| ImageServer.RetreatCycles | diamondback/sandbox/image_server_prototype/include/image_server/image_server.h:122-132 | when looping, k previous steps give frame (current - k) mod size |
| ImageServer.AdvanceClamps | diamondback/sandbox/image_server_prototype/include/image_server/image_server.h:110-120 | without looping, k next steps stop at the last frame |
| ImageServer.RetreatClamps | diamondback/sandbox/image_server_prototype/include/image_server/image_server.h:122-132 | without looping, k previous steps stop at frame 0 |
| ImageServer.Reconfigure | diamondback/sandbox/image_server_prototype/include/image_server/image_server.h:134-157 | auto-advance changes only the direction, 1 exactly when prev && !next; manual mode keeps the direction and records both switch states, and with neither switch toggled leaves the node unchanged |
| ImageServer.ReconfigureIdempotent | diamondback/sandbox/image_server_prototype/include/image_server/image_server.h:146-156 | the switches are edge-triggered: the same configuration twice acts once |
| ImageServer.ToggledNextSteps | diamondback/sandbox/image_server_prototype/include/image_server/image_server.h:146-149 | in manual mode a toggled next switch steps forward, whatever prev did |
| ImageServer.ToggledPrevSteps | diamondback/sandbox/image_server_prototype/include/image_server/image_server.h:150-153 | in manual mode a toggled prev switch alone steps backward |
| ImageServer.ReconfigureKeepsDirection | diamondback/sandbox/image_server_prototype/include/image_server/image_server.h:137-144 | the direction stays 0 or 1 |
| ImageServer.ReconfigureKeepsInCache | diamondback/sandbox/image_server_prototype/include/image_server/image_server.h:134-157 | reconfiguring keeps a frame that is inside the cache inside it |
| ImageServer.Spin | diamondback/sandbox/image_server_prototype/include/image_server/image_server.h:79-108 | publishes exactly when loaded and in the cache, and then the current frame; before loading, only the loader's result changes the state; direction and both switch states never change (the frame's step is in `SpinSteps`) |
| ImageServer.SpinSteps | diamondback/sandbox/image_server_prototype/include/image_server/image_server.h:81-101 | a publishing spin: without auto-advance the node is unchanged; with it, direction 0 steps by `Next`, direction 1 by `Prev`, any other direction leaves it unchanged; only the frame changes |
| ImageServer.SpinKeepsPublishing | diamondback/sandbox/image_server_prototype/include/image_server/image_server.h:79-103 | once loaded with the frame in the cache, the next spin will publish too |
| ImageServer.SlideShow | diamondback/sandbox/image_server_prototype/include/image_server/image_server.h:90-101 | auto-advancing forward with looping, k spins advance the frame by k mod the size |
| ImageServer.SlideShowBackward | diamondback/sandbox/image_server_prototype/include/image_server/image_server.h:90-101 | auto-advancing backward with looping, k spins move the frame to (current - k) mod the size |
| ImageServer.ManualHolds | diamondback/sandbox/image_server_prototype/include/image_server/image_server.h:81-101 | without auto-advance, any number of spins of a loaded node leave it unchanged |
| ImageServer.StuckPastEnd | diamondback/sandbox/image_server_prototype/include/image_server/image_server.h:81-103 | a loaded node whose frame is past the cache's end is never changed by spinning |
| ImageServer.DriftOnEmptyCache | diamondback/sandbox/image_server_prototype/include/image_server/image_server.h:110-148 | toggling next with an empty cache still moves the frame on, with 32-bit wrap |
| ImageServer.ImageServerNode.constructor | diamondback/sandbox/image_server_prototype/include/image_server/image_server.h:61-69 | frame 0, direction 0, both switch states false |
| ImageServer.ImageServerNode.NextFrame | diamondback/sandbox/image_server_prototype/include/image_server/image_server.h:110-120 | the frame becomes `Next` of the old frame, nothing else changes |
| ImageServer.ImageServerNode.PrevFrame | diamondback/sandbox/image_server_prototype/include/image_server/image_server.h:122-132 | the frame becomes `Prev` of the old frame, nothing else changes |
| ImageServer.ImageServerNode.ReconfigureCB | diamondback/sandbox/image_server_prototype/include/image_server/image_server.h:134-157 | the state becomes `Reconfigure` of the old one; direction validity and the in-cache bound are kept |
| ImageServer.ImageServerNode.SpinOnce | diamondback/sandbox/image_server_prototype/include/image_server/image_server.h:79-108 | state and published frame are `Spin` of the old state; a loaded in-cache node stays so |

## Left out

- ROS plumbing is not modelled, because it is all I/O: subscriptions, advertising,
  publishing, the 20 Hz sleep, `spin`, `main`, the `resetPose` service call, and the
  image server's reconfigure registration and `publishImage`.
- Seabee3Driver.Driver.SpinOnce: models "tick, then emit"; the emitted value is returned
  rather than sent.
- The PID types (`PidConfig`, `ConfiguredPid`, `Pid3D`) and the err-cap and PID parameters
  are left out. They wrap an unseen PID library, and every use of them is commented out.
- Commented-out code is not modelled as behaviour. This covers `updateMotorCntlFromTwist`
  and the commented error, capping and PID blocks.
- `LocalizationUtil::capValueProp` is not part of this model. It is a function-valued
  configuration field.
  - No ratio preservation is claimed for it.
  - Its bound appears only as the explicit assumption `CapKeepsWithin`.
- The BeeStem3 motor ids and `NUM_MOTOR_CONTROLLERS` are not part of this model.
  - They are stand-in distinct constants in range.
  - No proof depends on their actual values.
- `thruster_dir_cfg_` is an empty `std::vector` indexed by axis. The model assumes a
  six-entry table.
- `at(0)` is out of range; `At` and `SetAt` require `i >= 1`.
- Doubles are reals; there is no IEEE rounding. Double-to-int conversions are written out as
  truncation toward zero.
  - A double outside the range of `int` converted to `int` is undefined behaviour in C++;
    `Trunc` gives it a value instead. This covers the `double` motor values passed as `int`
    at seabee3_driver.cpp:476-481, and `value * -1.0` for `INT_MIN` at seabee3_driver.cpp:313.
- C++ `int` overflow when slots accumulate is not modelled; slots are unbounded integers.
- The float32 point fields are opaque 32-bit words, so float conversion is not modelled.
  - `struct.pack` range errors on them are left out.
  - So is any NaN canonicalisation.
- ContourArrayMsg.ContourArray.Serialize: on the error path it returns only the error. The
  bytes already written to `buff` before the raise are not modelled.
- ContourArrayMsg.ContourArray.Serialize: the name-length and point-count checks are merged
  into one test per contour. The outcome is the same error either way.
- `_check_types`, `_get_types` and the message class metadata are left out, because they
  are reflection only.
- The Python 2/3 `str` versus `bytes` distinction is left out; the input is a byte sequence.
- Memory limits in `deserialize` are not modelled. Under Python 2, `range(0, length)`
  (_ContourArray.py:88, :100) builds a list first, so a huge count word can end in
  `MemoryError` or `OverflowError` where `Decode` reports `BufferUnderfill`.
- The timeout monitor and `BaseRobotDriver` are not part of this model: only their
  declarations exist, and the timer semantics are concurrent.
- `WaypointController` is not part of this model; it is a stub service.
- `ImageLoader::loadImages` and the loader's construction are not part of this model.
  - The loaded flag and the cache size they leave behind are parameters of `SpinOnce` and
    of the constructor.
  - The cache's images themselves are not modelled: the published frame is reported by
    its index.
- The stored `config_.loop` that `nextFrame`/`prevFrame` read, and the stored
  `config_.auto_advance` that `spinOnce` reads, are parameters (`loop`, `autoAdvance`).
  - The reconfigure policy that updates `config_` is not part of this model.
  - `reconfigureCB`'s unused `level` argument is dropped.
- The `ROS_INFO` log line in `spinOnce` (image_server.h:85) is left out: it is output only.
- ImageServer cache and frame widths are assumptions: the cache container is declared in the
  image loader's header, which is not part of this model. The model takes `size()` as a
  64-bit `size_t` and `current_frame_` as a 32-bit `unsigned int`. On a 32-bit build,
  `size() - 1` (image_server.h:112) and the cut to `unsigned int` (image_server.h:130)
  behave differently.
