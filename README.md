# RealSense R200 / ZR300 camera driver core, in Dafny

This project models the device-facing core of the `realsense_camera` ROS
driver for the Intel RealSense R200 and ZR300 cameras, and proves properties
of that model. The core covers:

- the per-stream layout tables, and the IR2 stream's geometry, which is copied
  from the depth stream;
- the dynamic-reconfigure callbacks of both cameras. Each issues a fixed,
  flag-guarded sequence of device commands. The R200 also clamps the
  auto-exposure window and sends it as one 4-value write;
- the transform-tree edges for the IR2, fisheye and IMU frames. Each
  base-to-stream edge is the colour extrinsic's translation re-based as
  `(t[2], -t[0], -t[1])` with identity rotation. Each stream-to-optical edge
  has zero translation and a fixed rotation. When the IMU extrinsic query
  fails, a hardcoded translation is used instead;
- the ZR300 IMU aggregator. A motion handler records the latest gyro or
  accelerometer sample. A publish step emits a message only when someone
  listens and the timestamp has moved since the last emission;
- the IMU information service, which flattens a 3x4 matrix row-major and
  lower-cases the frame ids;
- the IMU lifecycle: thread start, motion tracking, stop, disable and join;
- the compile-time constants: stream count and names, default geometry and
  enables, frame ids, the identity rotation, and the firmware table.

Modules:

- `Constants`: the constants header.
- `Device`: the librealsense device, seen as an option map plus switches, with
  the log of every command issued to it. The class invariant is that its state
  is the initial state run through the log.
- `ConfigCallbacks`: the command sequence each callback issues, as functions,
  and the lemmas about guards, order and the edge write.
- `Transforms`: re-basing and edges.
- `Streams`: the per-stream arrays, as a class.
- `Imu`: the aggregator, as a class over arrays, proved against a pure state
  machine.
- `ImuInfo`: the information service.
- `Nodelet`: the two driver objects that tie these together.

## Model

| member | source | states |
|---|---|---|
| Constants.StreamAt | realsense_camera/include/realsense_camera/constants.h:43 | the stream in slot `i` of a per-stream array is the one whose index is `i` |
| Constants.StreamIndexBijective | realsense_camera/include/realsense_camera/constants.h:43 | each of the five streams has its own slot below STREAM_COUNT, and `StreamAt` inverts the numbering |
| Constants.StreamDescShape | realsense_camera/include/realsense_camera/constants.h:80 | STREAM_DESC has STREAM_COUNT names: Depth, RGB, IR, IR2, Fisheye in stream order |
| Constants.DefaultEnables | realsense_camera/include/realsense_camera/constants.h:53-61 | depth, colour, fisheye, IMU and TF are on by default; IR, IR2, point cloud and dynamic TF are off |
| Constants.AllDefaultFrameIds | realsense_camera/include/realsense_camera/constants.h:63-111 | there are 13 default frame ids: the base first, then each stream's body frame and each stream's optical frame in stream order, and the IMU's body and optical frames last |
| Constants.DefaultFrameIdsDistinct | realsense_camera/include/realsense_camera/constants.h:63-111 | every default optical frame id differs from its body frame id, and all 13 default ids are pairwise distinct |
| Constants.RotationIdentityIsIdentity | realsense_camera/include/realsense_camera/constants.h:82 | ROTATION_IDENTITY read row-major is the 3x3 identity |
| Constants.TableToMap | realsense_camera/include/realsense_camera/constants.h:121-134 | the name-to-firmware map has exactly the table's camera names as keys |
| Constants.TableToMapKeepsEveryRow | realsense_camera/include/realsense_camera/constants.h:121-134 | with distinct names the map has one key per row, and each name maps to its row's firmware |
| Constants.MapStartNamesDistinct | realsense_camera/include/realsense_camera/constants.h:121-129 | the six camera names of MAP_START_VALUES are pairwise distinct |
| Constants.MapStartValuesShape | realsense_camera/include/realsense_camera/constants.h:121-132 | MAP_START_VALUES_SIZE equals the entry count (6), and the map built from the table keeps all six entries |
| Device.WriteAll | realsense_camera/src/r200_nodelet.cpp:181 | after a multi-option write the device has exactly its old options plus every option named in the write |
| Device.Step | realsense_camera/src/r200_nodelet.cpp:132-184 | a device call that writes options touches no switch, and any other call leaves every option as it was |
| Device.Run | realsense_camera/src/r200_nodelet.cpp:129-185 | a sequence of device calls never removes an option the device held |
| Device.RunAppend | realsense_camera/src/r200_nodelet.cpp:129-185 | issuing two command sequences one after the other is issuing their concatenation |
| Device.RunIdempotent | realsense_camera/src/r200_nodelet.cpp:129-185 | issuing the same command sequence twice in succession leaves the device as issuing it once does |
| Device.Device.Execute | realsense_camera/src/zr300_nodelet.cpp:534-540 | a command is appended to the log, and the new state is that command's step from the old state |
| Device.Device.SetDeviceOption | realsense_camera/src/r200_nodelet.cpp:135 | the write is logged and the option takes the value; no other option changes |
| Device.Device.SetDeviceOptions | realsense_camera/src/r200_nodelet.cpp:181 | the multi-option write is logged as one command, and the options are written left to right |
| Device.Device.ApplyPreset | realsense_camera/src/r200_nodelet.cpp:184 | the preset is logged and recorded; the options map is unchanged |
| Device.Device.SetDepth | realsense_camera/src/r200_nodelet.cpp:132 | the depth enable is logged and recorded; the options map is unchanged |
| ConfigCallbacks.ClampEdge | realsense_camera/src/r200_nodelet.cpp:160-175 | a sent edge is at most `dim - 1` and at most the input, and is one of the two |
| ConfigCallbacks.ClampEdgeProperties | realsense_camera/src/r200_nodelet.cpp:160-175 | an edge below the bound, negatives included, passes unchanged, and clamping twice is clamping once |
| ConfigCallbacks.DefaultGeometryClamp | realsense_camera/include/realsense_camera/constants.h:44-45 | with the default 480x360 depth stream, a top edge of 400 is sent as 359 and a left edge of 400 passes unchanged |
| ConfigCallbacks.ClampEdges | realsense_camera/src/r200_nodelet.cpp:158-175 | after the clamp, top and bottom are below the depth height and left and right below the width; nothing but the four edges changes |
| ConfigCallbacks.ClampEdgesProperties | realsense_camera/src/r200_nodelet.cpp:158-175 | clamping the window twice is clamping it once, and a window already inside the depth image is sent unchanged |
| ConfigCallbacks.EdgeWrites | realsense_camera/src/r200_nodelet.cpp:176-181 | the multi-option write names left, top, right and bottom, in that order |
| ConfigCallbacks.R200Settings | realsense_camera/src/r200_nodelet.cpp:132-157 | 13 commands in all: the depth enable, then 12 single-option writes, plus one for each of manual white balance and manual left/right exposure when its automatic mode is 0 |
| ConfigCallbacks.R200Commands | realsense_camera/src/r200_nodelet.cpp:129-185 | the R200 callback starts with the depth enable, adds the edge write only when left/right auto-exposure is 1, and ends with the preset, which appears nowhere else |
| ConfigCallbacks.R200SettingsWithin | realsense_camera/src/r200_nodelet.cpp:132-157 | before the edge step the R200 callback issues no multi-write and no preset, and writes only colour and left/right-imager options |
| ConfigCallbacks.R200WhiteBalanceGuard | realsense_camera/src/r200_nodelet.cpp:143-148 | the R200 callback writes the manual white balance if and only if automatic white balance is 0 |
| ConfigCallbacks.R200LrExposureGuard | realsense_camera/src/r200_nodelet.cpp:151-155 | the R200 callback writes the manual left/right exposure if and only if left/right auto-exposure is 0 |
| ConfigCallbacks.R200EdgeCommandsAre | realsense_camera/src/r200_nodelet.cpp:158-182 | the edge step is one multi-write of the four clamped edges when left/right auto-exposure is 1, and nothing otherwise |
| ConfigCallbacks.R200EdgeWriteOnce | realsense_camera/src/r200_nodelet.cpp:158-182 | when left/right auto-exposure is 1 the clamped edge write occurs exactly once; the callback issues no other multi-write, and none at all otherwise |
| ConfigCallbacks.R200EdgeOptionWritten | realsense_camera/src/r200_nodelet.cpp:158-182 | any given window edge is written by the R200 callback if and only if left/right auto-exposure is 1 |
| ConfigCallbacks.R200EdgeOptionsWritten | realsense_camera/src/r200_nodelet.cpp:158-182 | every window edge is written by the R200 callback if and only if left/right auto-exposure is 1 |
| ConfigCallbacks.R200Order | realsense_camera/src/r200_nodelet.cpp:129-185 | the depth enable is the first command, and the depth-control preset is the last one and is applied once |
| ConfigCallbacks.R200DeviceHoldsClampedEdges | realsense_camera/src/r200_nodelet.cpp:158-184 | with left/right auto-exposure at 1, the device holds the four clamped edges after the callback, from any prior state |
| ConfigCallbacks.ZR300Settings | realsense_camera/src/zr300_nodelet.cpp:200-228 | 17 commands in all: the depth enable, then 16 single-option writes, plus one for each of manual white balance and manual left/right exposure when its automatic mode is 0 |
| ConfigCallbacks.ZR300Commands | realsense_camera/src/zr300_nodelet.cpp:198-245 | the ZR300 callback starts with the depth enable and applies the preset exactly once, right after the settings and before its last nine writes |
| ConfigCallbacks.ZR300WhiteBalanceGuard | realsense_camera/src/zr300_nodelet.cpp:213-218 | the ZR300 callback writes the manual white balance if and only if automatic white balance is 0 |
| ConfigCallbacks.ZR300LrExposureGuard | realsense_camera/src/zr300_nodelet.cpp:220-224 | the ZR300 callback writes the manual left/right exposure if and only if left/right auto-exposure is 0 |
| ConfigCallbacks.ZR300SettingsWithin | realsense_camera/src/zr300_nodelet.cpp:201-228 | before its preset the ZR300 callback issues no multi-write and no preset, and writes only colour, left/right-imager and depth-clamp options |
| ConfigCallbacks.ZR300FisheyeWritesAll | realsense_camera/src/zr300_nodelet.cpp:232-242 | the fisheye stretch writes every fisheye option |
| ConfigCallbacks.ZR300StreamingWritesAll | realsense_camera/src/zr300_nodelet.cpp:243-244 | the stretch after it writes the frame queue size and the hardware logger |
| ConfigCallbacks.ZR300LateCommandsWriteLateOptions | realsense_camera/src/zr300_nodelet.cpp:232-244 | after its preset the ZR300 callback writes an option if and only if it is a fisheye or streaming option, with no multi-write or preset |
| ConfigCallbacks.ZR300NoEdgeWrite | realsense_camera/src/zr300_nodelet.cpp:198-245 | the ZR300 callback issues no multi-option write and never writes an auto-exposure window edge |
| ConfigCallbacks.ZR300Order | realsense_camera/src/zr300_nodelet.cpp:198-245 | the depth enable comes first and the one preset sits exactly after the colour, left/right and depth-clamp writes (both clamps included) and before every fisheye, queue-size and logger write |
| Transforms.Rebase | realsense_camera/src/r200_nodelet.cpp:235-237 | re-basing `(t[2], -t[0], -t[1])` is undone by `Unrebase` |
| Transforms.RebaseRoundTrip | realsense_camera/src/r200_nodelet.cpp:235-237 | re-basing and its inverse undo each other in both directions |
| Transforms.RebaseKeepsLength | realsense_camera/src/r200_nodelet.cpp:235-237 | re-basing keeps the squared length of the translation |
| Transforms.BaseEdge | realsense_camera/src/r200_nodelet.cpp:231-242 | the base-to-stream edge runs from the base frame to the stream frame, with identity rotation and the re-based extrinsic translation |
| Transforms.OpticalEdge | realsense_camera/src/r200_nodelet.cpp:244-256 | the stream-to-optical edge has zero translation and the optical rotation |
| Transforms.StreamEdges | realsense_camera/src/r200_nodelet.cpp:231-256 | a stream's two edges chain base to stream to optical frame |
| Transforms.OpticalRotationIsUnit | realsense_camera/src/r200_nodelet.cpp:245 | the optical rotation (roll -pi/2, yaw -pi/2) is a unit quaternion other than the identity |
| Transforms.ImuFallback | realsense_camera/src/zr300_nodelet.cpp:400-412 | after a failed IMU query the translation is (-0.07, 0, 0), and the rotation is whatever the extrinsic held |
| Transforms.ImuFallbackEdge | realsense_camera/src/zr300_nodelet.cpp:460-471 | with the fallback, the base-to-IMU edge is (0, 0.07, 0) with identity rotation |
| Streams.R200Layout | realsense_camera/src/r200_nodelet.cpp:47-65 | the R200 sets a layout for every stream but the fisheye, and each layout's byte step matches its format and its encoding |
| Streams.ZR300Layout | realsense_camera/src/zr300_nodelet.cpp:59-62 | the ZR300 sets a consistent layout for every stream, and agrees with the R200 except on the fisheye |
| Streams.LayoutSteps | realsense_camera/src/r200_nodelet.cpp:47-65 | colour is RGB8 at 3 bytes, depth Z16 at 2, both infrared streams Y8 at 1, and the fisheye RAW8 at 1 |
| Streams.StreamTable.SetLayout | realsense_camera/src/r200_nodelet.cpp:47-50 | one stream's format, encoding and step are set, and every other stream's are unchanged |
| Streams.StreamTable.R200OnInit | realsense_camera/src/r200_nodelet.cpp:45-68 | each stream with an R200 layout gets it, and the fisheye entry is untouched |
| Streams.StreamTable.ZR300FisheyeLayout | realsense_camera/src/zr300_nodelet.cpp:59-62 | the fisheye gets RAW8 / 8UC1 / 1 and no other stream changes |
| Streams.StreamTable.R200GetParameters | realsense_camera/src/r200_nodelet.cpp:73-84 | IR2's width, height and fps become depth's whatever IR2 held; the IR2 frame ids and enable are the parameter or else the default; other streams are unchanged |
| Imu.SetFirst | realsense_camera/src/zr300_nodelet.cpp:329-330 | only the first covariance entry is replaced |
| Imu.Message | realsense_camera/src/zr300_nodelet.cpp:261-283 | the message carries the given frame id and the state's timestamp, no orientation with orientation covariance -1 first, and the state's two covariances |
| Imu.Emits | realsense_camera/src/zr300_nodelet.cpp:255-259 | the publish condition: at least one subscriber, and a timestamp that differs from the last emitted one |
| Imu.OnPublish | realsense_camera/src/zr300_nodelet.cpp:255-287 | a message is emitted iff subscribers > 0 and the timestamp differs from the last emitted one; an emission carries the current timestamp and records it as the last; otherwise nothing changes |
| Imu.PublishIdempotent | realsense_camera/src/zr300_nodelet.cpp:255-287 | a second publish pass with no motion event in between emits nothing and changes nothing |
| Imu.OnMotion | realsense_camera/src/zr300_nodelet.cpp:322-342 | a motion event sets the timestamp, leaves the publisher's timestamp and every covariance entry but the first alone, and after a gyro or accelerometer sample exactly one triad is live |
| Imu.GyroEvent | realsense_camera/src/zr300_nodelet.cpp:322-342 | a gyro event sets the angular velocity to its axes and zeroes the acceleration. It sets gyro cov[0] to 0 and accel cov[0] to -1, keeps the other covariance entries, and takes the event timestamp |
| Imu.AccelEvent | realsense_camera/src/zr300_nodelet.cpp:322-342 | an accelerometer event is the mirror image of a gyro event |
| Imu.OtherEvent | realsense_camera/src/zr300_nodelet.cpp:322-342 | an event from any other source changes only the timestamp |
| Imu.MotionKeepsOneTriadLive | realsense_camera/src/zr300_nodelet.cpp:322-342 | after any gyro or accelerometer event exactly one triad is live with the matching covariance flags, and later events keep it so |
| Imu.EmittedMessage | realsense_camera/src/zr300_nodelet.cpp:261-283 | an emitted message has zero orientation with orientation covariance (-1, 0, ..., 0), and copies the triads and all 9 entries of both covariances |
| Imu.Simulate | realsense_camera/src/zr300_nodelet.cpp:250-343 | any interleaving of motion events and publish passes emits at most one message per step, each stamped with the publisher's frame id |
| Imu.ConsecutiveMessagesDiffer | realsense_camera/src/zr300_nodelet.cpp:252-287 | from prev = -1, under any interleaving of motion events and publish steps, no two consecutive messages carry the same timestamp, and prev is the last message's timestamp |
| Imu.ImuAggregator.HandleMotion | realsense_camera/src/zr300_nodelet.cpp:318-343 | the handler's updates of the four arrays and the timestamp are exactly one `OnMotion` step |
| Imu.ImuAggregator.StartPublishing | realsense_camera/src/zr300_nodelet.cpp:252 | the publisher starts with prev = -1 and nothing else changed |
| Imu.ImuAggregator.PublishStep | realsense_camera/src/zr300_nodelet.cpp:255-287 | one pass of the publish loop, with its covariance copy loop, is exactly one `OnPublish` step, message included |
| ImuInfo.ToLower | realsense_camera/src/zr300_nodelet.cpp:133-134 | lower-casing keeps the length and maps each character through `tolower` |
| ImuInfo.ToLowerProperties | realsense_camera/src/zr300_nodelet.cpp:133-134 | only capitals change, none remain, and lower-casing twice is lower-casing once |
| ImuInfo.ImuAccelFrameId | realsense_camera/src/zr300_nodelet.cpp:132-134 | the accelerometer frame id is "imu_accel" |
| ImuInfo.ImuGyroFrameId | realsense_camera/src/zr300_nodelet.cpp:147-149 | the gyro frame id is "imu_gyro" |
| ImuInfo.BuildInfo | realsense_camera/src/zr300_nodelet.cpp:130-145 | the nested loops put row i, column j at `data[4*i + j]` and copy both variance triples, under the lower-cased label |
| ImuInfo.GetImuInfo | realsense_camera/src/zr300_nodelet.cpp:115-164 | both halves share one stamp, carry frame ids "imu_accel" and "imu_gyro", and hold their device's flattened matrix and variances |
| Nodelet.ClampWindow | realsense_camera/src/r200_nodelet.cpp:158-175 | the four in-place edge updates compute `ClampEdges` |
| Nodelet.R200Nodelet.SendColorImage | realsense_camera/src/r200_nodelet.cpp:135-138 | logs backlight compensation, brightness, contrast, gain |
| Nodelet.R200Nodelet.SendColorTone | realsense_camera/src/r200_nodelet.cpp:139-142 | logs gamma, hue, saturation, sharpness |
| Nodelet.R200Nodelet.SendColor | realsense_camera/src/r200_nodelet.cpp:135-142 | logs the eight R200 colour writes in order |
| Nodelet.R200Nodelet.SendWhiteBalance | realsense_camera/src/r200_nodelet.cpp:143-148 | logs the automatic white balance, then the manual one only when it is off |
| Nodelet.R200Nodelet.SendLr | realsense_camera/src/r200_nodelet.cpp:151-157 | logs the left/right auto-exposure, the manual exposure only when it is off, the gain and the emitter |
| Nodelet.R200Nodelet.SendEdges | realsense_camera/src/r200_nodelet.cpp:158-182 | logs the R200 edge step, and returns the configuration clamped when left/right auto-exposure is 1, unchanged otherwise |
| Nodelet.R200Nodelet.ConfigCallback | realsense_camera/src/r200_nodelet.cpp:129-185 | the device log grows by exactly `R200Commands`, and the configuration left behind has its edges clamped iff left/right auto-exposure is 1 |
| Nodelet.R200Nodelet.GetCameraExtrinsics | realsense_camera/src/r200_nodelet.cpp:207-218 | the colour-to-IR2 extrinsic becomes the one the device reports |
| Nodelet.R200Nodelet.PublishStaticTransforms | realsense_camera/src/r200_nodelet.cpp:223-257 | the field-by-field messages are exactly the two IR2 edges |
| Nodelet.R200Nodelet.PublishDynamicTransforms | realsense_camera/src/r200_nodelet.cpp:262-284 | dynamic publication sends exactly the same two IR2 edges as static publication |
| Nodelet.ZR300Nodelet.OnInit | realsense_camera/src/zr300_nodelet.cpp:57-71 | every stream gets its ZR300 layout; the IMU thread starts, with prev = -1, iff the IMU is enabled |
| Nodelet.ZR300Nodelet.SetStreams | realsense_camera/src/zr300_nodelet.cpp:296-311 | motion tracking is enabled and the source becomes all sources iff the IMU is enabled; otherwise nothing is issued |
| Nodelet.ZR300Nodelet.StopImu | realsense_camera/src/zr300_nodelet.cpp:534-540 | stop motion source is issued before disable motion tracking; tracking ends off and the options are unchanged |
| Nodelet.ZR300Nodelet.Destroy | realsense_camera/src/zr300_nodelet.cpp:44-52 | with the IMU enabled the IMU is stopped and the thread joined; otherwise nothing happens |
| Nodelet.ZR300Nodelet.PublishImu | realsense_camera/src/zr300_nodelet.cpp:255-287 | one publisher pass is one `OnPublish` step with the IMU optical frame, so every emitted message carries `imu_optical_frame_id_` |
| Nodelet.ZR300Nodelet.MotionHandler | realsense_camera/src/zr300_nodelet.cpp:318-343 | the installed motion handler updates the shared IMU state by exactly one `OnMotion` step |
| Nodelet.ZR300Nodelet.SendColorImage | realsense_camera/src/zr300_nodelet.cpp:204-207 | logs backlight compensation, brightness, contrast, exposure |
| Nodelet.ZR300Nodelet.SendColorTone | realsense_camera/src/zr300_nodelet.cpp:208-212 | logs gain, gamma, hue, saturation, sharpness |
| Nodelet.ZR300Nodelet.SendColor | realsense_camera/src/zr300_nodelet.cpp:204-212 | logs the nine ZR300 colour writes in order |
| Nodelet.ZR300Nodelet.SendColorMode | realsense_camera/src/zr300_nodelet.cpp:213-219 | logs automatic white balance, manual white balance only when it is off, then colour auto-exposure |
| Nodelet.ZR300Nodelet.SendLr | realsense_camera/src/zr300_nodelet.cpp:220-226 | logs the left/right writes with the same guard as the R200 |
| Nodelet.ZR300Nodelet.SendDepthClamp | realsense_camera/src/zr300_nodelet.cpp:227-228 | logs the depth clamp minimum, then maximum |
| Nodelet.ZR300Nodelet.SendSettings | realsense_camera/src/zr300_nodelet.cpp:201-228 | logs everything the ZR300 callback issues before its preset |
| Nodelet.ZR300Nodelet.SendFisheyeExposure | realsense_camera/src/zr300_nodelet.cpp:232-236 | logs fisheye exposure, gain, auto-exposure enable and mode |
| Nodelet.ZR300Nodelet.SendFisheyeTuning | realsense_camera/src/zr300_nodelet.cpp:237-242 | logs the fisheye antiflicker rate, pixel sample rate and skip frames |
| Nodelet.ZR300Nodelet.SendLate | realsense_camera/src/zr300_nodelet.cpp:232-244 | logs everything the ZR300 callback issues after its preset |
| Nodelet.ZR300Nodelet.ConfigCallback | realsense_camera/src/zr300_nodelet.cpp:198-245 | the device log grows by exactly `ZR300Commands` |
| Nodelet.ZR300Nodelet.GetCameraExtrinsics | realsense_camera/src/zr300_nodelet.cpp:387-414 | IR2 and fisheye extrinsics are taken as reported. On IMU query failure the error is cleared and the fallback translation used; on success the reported extrinsic is used and the pending error is left as it was |
| Nodelet.ZR300Nodelet.PublishStaticTransforms | realsense_camera/src/zr300_nodelet.cpp:419-486 | the field-by-field messages are the IR2, fisheye and IMU edges, in that order |
| Nodelet.ZR300Nodelet.PublishDynamicTransforms | realsense_camera/src/zr300_nodelet.cpp:491-529 | dynamic publication sends exactly the same six edges as static publication |

## Left out

- ROS plumbing is not modelled: topic and service advertisement, the dynamic-reconfigure server, logging, and the frame callbacks.
- Parameter loading is not modelled beyond the R200's IR2 parameters. The ZR300's fisheye and IMU parameters (`zr300_nodelet.cpp:76-88`) are plain reads with defaults.
- Threads, the mutex and the `while (ros::ok())` loop of the IMU publisher are not modelled as such. Each handler call and each publish pass is one atomic method call, and `Simulate` interleaves them arbitrarily.
- The thread is a started flag plus `StartPublishing`, and joining it is a flag. The `stopIMU` call after the publisher's loop ends (`zr300_nodelet.cpp:290`) is not modelled.
- librealsense is the abstract `Device`. The effect of a depth-control preset on individual options is not modelled; the preset is only recorded.
- `checkError` is defined in a file that is not part of this model, so its effect is unknown. The error paths of the IR2 and fisheye extrinsic queries, the motion-intrinsics query and the motion-tracking enable are left out. Only the IMU extrinsic fallback, which the code handles itself, is modelled.
- Nodelet.ZR300Nodelet.GetCameraExtrinsics: on a successful IMU query the pending error is left as it was, because its prior value comes from code that is not part of this model.
- Timestamps are not converted. The IMU message stamp is the raw `imu_ts_`, not the camera start time plus `imu_ts_ * 0.001`. Transform stamps, `IMU_UNITS_TO_MSEC` and the `timestamp_handler_` are not modelled.
- Floating point is modelled as `real`. The `setRPY(-pi/2, 0, -pi/2)` quaternion is taken as its exact value (-1/2, 1/2, -1/2, 1/2). Configuration integers become option values exactly.
- OpenCV matrix types (`cv_type_`) are not modelled; they feed only image publication.
- The `edge_options_` array is declared in a header that is not part of this model. Its order is taken to be left, top, right, bottom, matching the value array at `r200_nodelet.cpp:177-180`.
- The BaseNodelet is not part of this model. That covers the depth, colour and IR edges, frame publishing, and `setDepthEnable`, which is modelled as one logged command.
- Nodelet.R200Nodelet.ConfigCallback: the source clamps the caller's configuration in place through a reference. The model takes the configuration by value and returns the clamped copy as `applied`.
- The camera-name-to-firmware map is built in a file that is not part of this model. `TableToMap` builds it by insertion, with the first row of a repeated name winning, as a range-constructed map does.
- Dynamic publication re-sends the optical edges as well as the base edges (`r200_nodelet.cpp:278-283`, `zr300_nodelet.cpp:507-528`).
- The fisheye stream format is RAW8 (`zr300_nodelet.cpp:59`).
- Device: every option write is taken to succeed with the written value. The source ignores write failures (null error pointer), so a rejected write that leaves the option unchanged is not modelled.
