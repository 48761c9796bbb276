/** The image data block: the five-field record handed to the vendor's
    live-view routine, and the exported accessors that create, destroy,
    set and read it. Every accessor takes a possibly-null handle. */
module ImageDataBlock {
  import opened CrTypes

  /** The value held by a block, field by field, in declaration order. */
  datatype Fields = Fields(frameNo: U32, size: U32, pData: array?<Byte>, imageSize: U32, timeCode: U32)

  /** What a newly constructed block holds: every scalar 0 and no data pointer. */
  const Zeroed: Fields := Fields(0, 0, null, 0, 0)

  class ImageDataBlockWrapper {
    var frameNo: U32
    var size: U32
    var pData: array?<Byte>
    var imageSize: U32
    var timeCode: U32
    /** False once the block has been deleted; any later use is undefined. */
    ghost var live: bool

    function Value(): Fields
      reads this
    {
      Fields(frameNo, size, pData, imageSize, timeCode)
    }

    constructor ()
      ensures live && Value() == Zeroed
    {
      frameNo, size, pData, imageSize, timeCode := 0, 0, null, 0, 0;
      live := true;
    }
  }

  /** The handle the host may still use: NULL, or a block not yet destroyed. */
  ghost predicate Usable(imageData: ImageDataBlockWrapper?)
    reads imageData
  {
    imageData != null ==> imageData.live
  }

  method CreateImageDataBlock() returns (h: ImageDataBlockWrapper)
    ensures fresh(h) && h.live
    ensures h.Value() == Zeroed
  {
    h := new ImageDataBlockWrapper();
  }

  /** Deleting a block ends its life; deleting NULL does nothing. */
  method DestroyImageDataBlock(imageData: ImageDataBlockWrapper?)
    requires Usable(imageData)
    modifies imageData
    ensures imageData != null ==> !imageData.live
  {
    if imageData != null {
      imageData.live := false;
    }
  }

  method SetImageDataBlockSize(imageData: ImageDataBlockWrapper?, size: U32)
    requires Usable(imageData)
    modifies imageData
    ensures imageData != null ==> imageData.live && imageData.Value() == old(imageData.Value()).(size := size)
  {
    if imageData != null {
      imageData.size := size;
    }
  }

  method SetImageDataBlockData(imageData: ImageDataBlockWrapper?, data: array?<Byte>)
    requires Usable(imageData)
    modifies imageData
    ensures imageData != null ==> imageData.live && imageData.Value() == old(imageData.Value()).(pData := data)
    ensures GetImageDataBlockImageData(imageData) == data || imageData == null
  {
    if imageData != null {
      imageData.pData := data;
    }
  }

  /** The size the vendor reported; 0 for a NULL handle. */
  function GetImageDataBlockImageSize(imageData: ImageDataBlockWrapper?): (n: U32)
    requires Usable(imageData)
    reads imageData
    ensures imageData == null ==> n == 0
    ensures imageData != null ==> n == imageData.Value().imageSize
  {
    if imageData != null then imageData.imageSize else 0
  }

  /** The data pointer last stored; NULL for a NULL handle. */
  function GetImageDataBlockImageData(imageData: ImageDataBlockWrapper?): (p: array?<Byte>)
    requires Usable(imageData)
    reads imageData
    ensures imageData == null ==> p == null
    ensures imageData != null ==> p == imageData.Value().pData
  {
    if imageData != null then imageData.pData else null
  }
}
