/** The exported bridge entry points that go beyond a single field:
    the live-view fetch through the lazily bound vendor routine, and the
    bounded copy of the fetched bytes into a host buffer. */
module Bridge {
  import opened CrTypes
  import opened ImageDataBlock
  import opened VendorBinding

  /** The file-scope statics of the helper: the vendor library handle and
      the address of its GetLiveViewImage routine. One instance stands for
      the process. */
  class HelperStatics {
    var hSonyDll: Address
    var pGetLiveViewImage: Address

    function Cached(): Cache
      reads this
    {
      Cache(hSonyDll, pGetLiveViewImage)
    }

    /** Static initialisation: both NULL. */
    constructor ()
      ensures Cached() == Unbound
    {
      hSonyDll, pGetLiveViewImage := NULL, NULL;
    }

    /** Loads the vendor library on first use, then forwards both handles to
        its GetLiveViewImage routine. The loader's and the vendor's answers
        for this call are given as os and reply. */
    method GetLiveViewImageHelper(deviceHandle: Address, imageData: ImageDataBlockWrapper?, os: Loader, reply: VendorReply)
      returns (r: CrError)
      requires Valid(Cached()) && Usable(imageData)
      modifies this, imageData
      ensures var o := Step(old(Cached()), Call(deviceHandle, imageData != null, os, reply));
        Cached() == o.cache && r == o.code &&
        (imageData != null ==>
          imageData.live &&
          imageData.Value() == if o.vendorCalled then VendorWrites(old(imageData.Value()), reply) else old(imageData.Value()))
    {
      if hSonyDll == NULL {
        hSonyDll := os.loadLibrary;
        if hSonyDll == NULL {
          return CrErrorGeneric;
        }
        pGetLiveViewImage := os.getProcAddress;
        if pGetLiveViewImage == NULL {
          return CrErrorGeneric;
        }
      }
      if deviceHandle != NULL && imageData != null && pGetLiveViewImage != NULL {
        r := GetLiveViewImage(imageData, reply);
        return r;
      }
      return CrErrorGeneric;
    }
  }

  /** The block after the vendor routine has filled it: frameNo, imageSize
      and timeCode as the vendor chose; size and pData as the host left them. */
  function VendorWrites(before: Fields, reply: VendorReply): (after: Fields)
    ensures after.size == before.size && after.pData == before.pData
    ensures after.frameNo == reply.frameNo && after.imageSize == reply.imageSize && after.timeCode == reply.timeCode
  {
    before.(frameNo := reply.frameNo, imageSize := reply.imageSize, timeCode := reply.timeCode)
  }

  /** The vendor routine itself, reduced to its observable effect on the block. */
  method GetLiveViewImage(imageData: ImageDataBlockWrapper, reply: VendorReply) returns (code: CrError)
    requires imageData.live
    modifies imageData
    ensures imageData.live && imageData.Value() == VendorWrites(old(imageData.Value()), reply)
    ensures code == reply.code
  {
    imageData.frameNo, imageData.imageSize, imageData.timeCode := reply.frameNo, reply.imageSize, reply.timeCode;
    code := reply.code;
  }

  /** The destination after CopyImageData, given the source bytes and the
      reported image size: the first imageSize bytes come from the source when
      the image is non-empty and fits bufferSize; nothing changes otherwise. */
  function CopyOut(dest: seq<Byte>, src: seq<Byte>, imageSize: U32, bufferSize: U32): (r: seq<Byte>)
    requires 0 < imageSize <= bufferSize ==> imageSize <= |src| && imageSize <= |dest|
    ensures |r| == |dest|
    ensures 0 < imageSize <= bufferSize ==> r[..imageSize] == src[..imageSize]
    ensures !(0 < imageSize <= bufferSize) ==> r == dest
    // no byte at or past imageSize, nor at or past bufferSize, is ever written
    ensures forall i :: 0 <= i < |dest| && r[i] != dest[i] ==> i < imageSize && i < bufferSize
  {
    if 0 < imageSize <= bufferSize then src[..imageSize] + dest[imageSize..] else dest
  }

  /** memcpy: the first n bytes of dest become the first n bytes of src.
      C leaves overlapping copies undefined; this model chooses to let dest and
      src be the same array and copies it element by element, forwards. */
  method MemCopy(dest: array<Byte>, src: array<Byte>, n: nat)
    requires n <= dest.Length && n <= src.Length
    modifies dest
    ensures dest[..] == old(src[..n]) + old(dest[n..])
  {
    var i := 0;
    while i < n
      invariant 0 <= i <= n
      invariant forall k :: 0 <= k < i ==> dest[k] == old(src[k])
      invariant forall k :: i <= k < dest.Length ==> dest[k] == old(dest[k])
      invariant forall k :: i <= k < src.Length ==> src[k] == old(src[k])
    {
      dest[i] := src[i];
      i := i + 1;
    }
    assert dest[..] == old(src[..n]) + old(dest[n..]) by {
      forall k | 0 <= k < dest.Length
        ensures dest[..][k] == (old(src[..n]) + old(dest[n..]))[k]
      {
      }
    }
  }

  /** The copy guard compares imageSize with bufferSize only, never with the
      block's size: a reported image larger than the host's data buffer but
      within the destination is still copied, imageSize bytes from pData. */
  lemma CopyIsNotBoundedByBlockSize(f: Fields, dest: seq<Byte>, src: seq<Byte>, bufferSize: U32)
    requires f.size < f.imageSize <= bufferSize
    requires f.imageSize <= |src| && f.imageSize <= |dest|
    ensures |CopyOut(dest, src, f.imageSize, bufferSize)| == |dest|
    ensures CopyOut(dest, src, f.imageSize, bufferSize)[..f.imageSize] == src[..f.imageSize]
  {
  }

  /** Copies the fetched image out of the block's data pointer into a host
      buffer of bufferSize bytes, and only when that is safe. */
  method CopyImageData(imageData: ImageDataBlockWrapper?, destBuffer: array?<Byte>, bufferSize: U32)
    requires Usable(imageData)
    // when the copy happens, both buffers hold the imageSize bytes memcpy reads and writes
    requires destBuffer != null && imageData != null && imageData.pData != null && 0 < imageData.imageSize <= bufferSize ==>
      imageData.imageSize <= imageData.pData.Length && imageData.imageSize <= destBuffer.Length
    modifies destBuffer
    ensures destBuffer != null && imageData != null && imageData.pData != null ==>
      destBuffer[..] == CopyOut(old(destBuffer[..]), old(imageData.pData[..]), imageData.imageSize, bufferSize)
    ensures destBuffer != null && (imageData == null || imageData.pData == null) ==>
      destBuffer[..] == old(destBuffer[..])
  {
    if imageData != null && destBuffer != null {
      var wrapper := imageData;
      if wrapper.pData != null && wrapper.imageSize > 0 && wrapper.imageSize <= bufferSize {
        MemCopy(destBuffer, wrapper.pData, wrapper.imageSize);
      }
    }
  }
}

/** A host using the entry points in the intended order: create a block,
    prime it with a buffer, fetch one frame, copy it out, destroy the block.
    What is asserted follows from the contracts above alone. */
module BridgeClient {
  import opened CrTypes
  import opened ImageDataBlock
  import opened VendorBinding
  import opened Bridge

  method FetchAndCopy(device: Address, os: Loader, reply: VendorReply)
    requires device != NULL && os.loadLibrary != NULL && os.getProcAddress != NULL
    requires reply.imageSize == 3
  {
    var statics := new HelperStatics();
    var h := CreateImageDataBlock();
    var buffer := new Byte[4](i => 7);
    SetImageDataBlockSize(h, 4);
    SetImageDataBlockData(h, buffer);
    var code := statics.GetLiveViewImageHelper(device, h, os, reply);
    assert code == reply.code;
    assert GetImageDataBlockImageSize(h) == 3;

    // a destination too small for the reported image is left untouched
    var small := new Byte[2](i => 0);
    CopyImageData(h, small, 2);
    assert small[..] == [0, 0];

    // a large enough one receives exactly the reported bytes
    var dest := new Byte[4](i => 0);
    CopyImageData(h, dest, 4);
    assert dest[..3] == buffer[..3] && dest[3] == 0;

    // without a library, a second process's first fetch fails and caches nothing
    var other := new HelperStatics();
    var failed := other.GetLiveViewImageHelper(device, h, Loader(NULL, NULL), reply);
    assert failed == CrErrorGeneric && other.Cached() == Unbound;

    DestroyImageDataBlock(h);
    DestroyImageDataBlock(null);
  }
}
