# Sony live-view helper: image data block, lazy vendor binding, bounded copy-out

This project models the native helper DLL that lets the photo-booth host fetch
live-view frames from a Sony camera through the vendor's Camera Remote SDK
without linking against it. The helper does three things:

- it owns an *image data block*: a five-field record (`frameNo`, `size`,
  `pData`, `imageSize`, `timeCode`). The host creates and destroys it, sets
  the buffer capacity and the buffer pointer, and reads back the image size
  and the data pointer. Every accessor accepts a NULL handle.
- it binds lazily to `Cr_Core.dll`. On the first fetch it loads the library
  and looks up `GetLiveViewImage`, and it caches both in two process-wide
  statics. A failed load caches nothing, so the next fetch tries again. A
  library that loaded without the routine stays cached, and every later
  fetch fails without reloading. The vendor routine runs only with a device
  handle, a block and a bound routine. Its code is returned unchanged, and
  every other path returns `CrError_Generic` (`0x8001`).
- it copies the fetched bytes into a host buffer with a bounded `memcpy`.
  The copy happens only when there is a block, a destination and a data
  pointer, and the reported image size is non-zero and fits the destination.

Files:

- `cr_types.dfy` (module `CrTypes`): the SDK's scalar types with their
  widths (`CrInt32u`, `CrInt8u`, `CrError`), and opaque addresses with `NULL`.
- `image_data_block.dfy` (module `ImageDataBlock`): the block as a class
  and the six block accessors. Handles are nullable references. A ghost
  `live` flag marks a destroyed block, and every accessor requires it of a
  non-NULL handle, because use after `delete` is undefined.
- `vendor_binding.dfy` (module `VendorBinding`): the binding as a state
  machine over the two statics. `Step` is one fetch and `Run` is a sequence
  of fetches, with lemmas about whole runs.
- `bridge.dfy` (module `Bridge`): the statics as a class whose
  `GetLiveViewImageHelper` follows the source's branches and is proved equal
  to `Step`, and `CopyImageData` with `memcpy` as a loop over arrays, proved
  equal to `CopyOut`. Module `BridgeClient` has a host that creates, primes,
  fetches, copies and destroys, and asserts what the contracts promise.

Opaque pointers that the helper only tests against NULL are natural numbers
with `NULL` = 0: the device handle, the module handle and the routine
address. Pointers that the helper dereferences are Dafny references: the
block and the byte buffers.

The copy guard at `SonySDKHelperSimple.cpp:104` compares `imageSize` only
with `bufferSize`, the destination's capacity, and never with the block's
`size`, the capacity of the host's data buffer. So when the vendor reports
`size < imageSize <= bufferSize`, the copy still happens, and `memcpy` reads
`imageSize` bytes from `pData`, past the end of that buffer
(`Bridge.CopyIsNotBoundedByBlockSize` states that the copy is taken). For
that reason `CopyImageData` requires, only on the path where it copies, that
`pData` and the destination each hold `imageSize` bytes. That is the same
demand `memcpy` makes of its caller.

## Model

| member | source | states |
|---|---|---|
| `ImageDataBlock.ImageDataBlockWrapper.constructor` | CameraControl.Devices/Sony/SonySDKHelperSimple.cpp:30-39 | a new block has frameNo, size, imageSize and timeCode 0 and pData NULL |
| `ImageDataBlock.CreateImageDataBlock` | CameraControl.Devices/Sony/SonySDKHelperSimple.cpp:42-45 | returns a fresh, live block whose fields are all zero and whose pData is NULL |
| `ImageDataBlock.DestroyImageDataBlock` | CameraControl.Devices/Sony/SonySDKHelperSimple.cpp:47-51 | ends the life of a non-NULL block; NULL is a no-op; destroying twice is excluded by the precondition |
| `ImageDataBlock.SetImageDataBlockSize` | CameraControl.Devices/Sony/SonySDKHelperSimple.cpp:53-57 | on a non-NULL block, size becomes n and the other four fields keep their values; with NULL nothing changes |
| `ImageDataBlock.SetImageDataBlockData` | CameraControl.Devices/Sony/SonySDKHelperSimple.cpp:59-63 | on a non-NULL block, pData becomes p and the other fields keep their values, so the data getter then returns p; with NULL nothing changes |
| `ImageDataBlock.GetImageDataBlockImageSize` | CameraControl.Devices/Sony/SonySDKHelperSimple.cpp:65-70 | read-only; the stored imageSize for a block, 0 for NULL |
| `ImageDataBlock.GetImageDataBlockImageData` | CameraControl.Devices/Sony/SonySDKHelperSimple.cpp:72-77 | read-only; the stored pData for a block, NULL for NULL |
| `VendorBinding.Step` | CameraControl.Devices/Sony/SonySDKHelperSimple.cpp:79-98 | one fetch: loads exactly when no library is cached; a cached handle and routine stay unchanged; a failed load caches nothing and returns 0x8001; a successful load caches the handle and the looked-up address; the vendor runs iff the device handle, the block and the bound routine are all non-NULL, and its code is returned unchanged; otherwise 0x8001 |
| `VendorBinding.Run` | CameraControl.Devices/Sony/SonySDKHelperSimple.cpp:20-27 | a sequence of fetches keeps the statics consistent (no routine address without a library) and each fetch acts on the statics the previous one left |
| `VendorBinding.CachedHandleIsKept` | CameraControl.Devices/Sony/SonySDKHelperSimple.cpp:81-92 | once the library handle is non-NULL, no later fetch loads again or changes either static |
| `VendorBinding.LoadedAtMostOnce` | CameraControl.Devices/Sony/SonySDKHelperSimple.cpp:81-92 | in any run, after the first fetch that leaves a library cached, no fetch loads again and the statics never change |
| `VendorBinding.MissingSymbolIsFinal` | CameraControl.Devices/Sony/SonySDKHelperSimple.cpp:87-98 | a library cached without its routine makes every later fetch return 0x8001 without reaching the vendor |
| `VendorBinding.FailedLoadsAreRetried` | CameraControl.Devices/Sony/SonySDKHelperSimple.cpp:81-85 | while loads fail, every fetch tries to load again, returns 0x8001 and leaves both statics NULL |
| `VendorBinding.BindsOnceLibraryAppears` | CameraControl.Devices/Sony/SonySDKHelperSimple.cpp:81-96 | after any number of failed loads, the first fetch that finds the library and its routine, with both arguments present, reaches the vendor and returns its code |
| `Bridge.HelperStatics.constructor` | CameraControl.Devices/Sony/SonySDKHelperSimple.cpp:20-27 | both statics start NULL |
| `Bridge.HelperStatics.GetLiveViewImageHelper` | CameraControl.Devices/Sony/SonySDKHelperSimple.cpp:79-98 | the new statics and the returned code are those of `Step`; when the vendor runs, the block receives its frameNo, imageSize and timeCode and keeps size and pData; otherwise the block is unchanged |
| `Bridge.GetLiveViewImage` | CameraControl.Devices/Sony/SonySDKHelperSimple.cpp:94-97 | the vendor routine's observable effect: returns its code and writes only frameNo, imageSize and timeCode |
| `Bridge.CopyOut` | CameraControl.Devices/Sony/SonySDKHelperSimple.cpp:104-105 | the destination keeps its length; with 0 < imageSize <= bufferSize its first imageSize bytes equal the source's; otherwise it is unchanged; no byte at or past imageSize or bufferSize ever changes |
| `Bridge.MemCopy` | CameraControl.Devices/Sony/SonySDKHelperSimple.cpp:105 | the first n destination bytes become the source's first n bytes, and the rest stay as they were, even when source and destination are the same buffer |
| `Bridge.CopyImageData` | CameraControl.Devices/Sony/SonySDKHelperSimple.cpp:101-108 | with a block, a destination and a data pointer, the destination becomes `CopyOut` of its old bytes and the source; with a NULL block or a NULL data pointer it is unchanged; only the destination may change; the buffer-length precondition applies only when the copy happens |
| `Bridge.CopyIsNotBoundedByBlockSize` | CameraControl.Devices/Sony/SonySDKHelperSimple.cpp:104-105 | when the reported imageSize exceeds the block's size but fits bufferSize, the guard still lets the copy through and imageSize bytes are taken from the data buffer |

## Left out

- `SonySDKHelper.cpp`, the variant that forwards to the vendor's own `CrImageDataBlock` class and links `GetLiveViewImage` at load time: every body there calls code that is not part of this model.
- `LoadLibraryA` and `GetProcAddress`: each call's answer is an input (`Loader`), a handle or address that may be NULL.
- The vendor's `GetLiveViewImage`: only its return code and its writes to `frameNo`, `imageSize` and `timeCode` are modelled (`VendorReply`). Its writes of pixel bytes into the host's buffer, and its reading of the device, are not.
- Bridge.GetLiveViewImage: takes the block as a block. The source passes any `void*` to the vendor, and the vendor's view of memory that is not a block is not modelled.
- Allocation failure of `new`, and the actual freeing of memory: a destroyed block is marked by a ghost flag, and any later use of it is excluded by preconditions.
- Struct layout and calling convention (`__declspec(dllexport)`, `__cdecl`, field offsets): not expressible here.
- The race between two threads that both fetch for the first time: fetches are modelled as sequential.
- The statics for create, destroy, set and get routines that are declared but never assigned (lines 21-26): nothing reads them.
- The meaning of the image bytes.
