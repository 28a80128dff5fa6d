/** The drag-and-drop upload zone: a size limit given in megabytes and
    checked in bytes, the dragging and uploading flags, and the hand-off of
    the first dropped or selected file to the zone's `onFileUpload` callback. */
module DragDropZone {
  import opened Common

  /** Bytes in one megabyte as the zone counts them. */
  const BytesPerMegabyte: nat := 1024 * 1024

  const DefaultAccept: string := ".csv"
  const DefaultMaxSize: real := 10.0

  /** `file.size > maxSize * 1024 * 1024` is false: the file may be uploaded. */
  predicate WithinLimit(size: nat, maxSize: real) {
    !(size as real > maxSize * 1024.0 * 1024.0)
  }

  /** With the default limit, a file is accepted exactly when it has at most
      10485760 bytes: a file of exactly 10 MB passes, one byte more does not. */
  lemma DefaultLimitInBytes(size: nat)
    ensures WithinLimit(size, DefaultMaxSize) <==> size <= 10 * BytesPerMegabyte
    ensures 10 * BytesPerMegabyte == 10485760
    ensures WithinLimit(10485760, DefaultMaxSize) && !WithinLimit(10485761, DefaultMaxSize)
  {
  }

  /** For any whole number of megabytes, the limit is that many times 1048576 bytes. */
  lemma WholeMegabyteLimit(size: nat, megabytes: nat)
    ensures WithinLimit(size, megabytes as real) <==> size <= megabytes * BytesPerMegabyte
  {
    assert (megabytes * BytesPerMegabyte) as real == megabytes as real * 1024.0 * 1024.0;
  }

  /** A larger limit accepts everything a smaller one does. */
  lemma LimitMonotone(size: nat, smaller: real, larger: real)
    requires smaller <= larger
    ensures WithinLimit(size, smaller) ==> WithinLimit(size, larger)
  {
  }

  /** What the zone does that can be observed from outside. */
  datatype Effect =
    | UploadingChanged(uploading: bool)   // `setIsUploading`
    | Delivered(file: File)               // `onFileUpload(file)`
    | SizeAlert(maxSize: real)            // the "File size must be less than ...MB" alert

  /** The files handed to `onFileUpload`, in order. */
  function Deliveries(effects: seq<Effect>): (files: seq<File>)
    ensures |files| <= |effects|
  {
    if effects == [] then []
    else
      var last := effects[|effects| - 1];
      Deliveries(effects[..|effects| - 1]) + (if last.Delivered? then [last.file] else [])
  }

  /** The deliveries of two stretches of effects add up. */
  lemma {:induction false} DeliveriesAppend(a: seq<Effect>, b: seq<Effect>)
    ensures Deliveries(a + b) == Deliveries(a) + Deliveries(b)
  {
    if b == [] {
      assert a + b == a;
    } else {
      assert (a + b)[..|a + b| - 1] == a + b[..|b| - 1];
      DeliveriesAppend(a, b[..|b| - 1]);
    }
  }

  /** The effects of one accepted upload deliver that file and nothing else. */
  lemma AcceptedUploadDeliversOnce(file: File)
    ensures Deliveries([UploadingChanged(true), Delivered(file), UploadingChanged(false)]) == [file]
  {
    var first := [UploadingChanged(true)];
    var two := first + [Delivered(file)];
    assert first[..0] == [];
    assert Deliveries(first) == [];
    assert two[..1] == first;
    assert Deliveries(two) == [file];
    var all := two + [UploadingChanged(false)];
    assert all[..2] == two;
    assert Deliveries(all) == [file];
    assert all == [UploadingChanged(true), Delivered(file), UploadingChanged(false)];
  }

  class Zone {
    /** The `accept` prop; the handlers never read it. */
    const accept: string
    /** The `maxSize` prop, in megabytes. */
    const maxSize: real
    var isDragging: bool
    var isUploading: bool
    /** Everything the zone has done so far, oldest first. */
    var effects: seq<Effect>

    /** A zone with the given props, idle. */
    constructor (accept: string, maxSize: real)
      ensures this.accept == accept && this.maxSize == maxSize
      ensures !isDragging && !isUploading && effects == []
    {
      this.accept := accept;
      this.maxSize := maxSize;
      isDragging := false;
      isUploading := false;
      effects := [];
    }

    /** A zone with the default props: ".csv" and 10 MB. */
    constructor Default()
      ensures accept == DefaultAccept && maxSize == DefaultMaxSize
      ensures !isDragging && !isUploading && effects == []
    {
      accept := DefaultAccept;
      maxSize := DefaultMaxSize;
      isDragging := false;
      isUploading := false;
      effects := [];
    }

    /** `handleDragOver`. */
    method DragOver()
      modifies this`isDragging
      ensures isDragging
    {
      isDragging := true;
    }

    /** `handleDragLeave`. */
    method DragLeave()
      modifies this`isDragging
      ensures !isDragging
    {
      isDragging := false;
    }

    /** `handleFileUpload`, run to completion: a file over the limit only
        raises the alert; any other file, whatever its type, sets the
        uploading flag, is delivered exactly once and clears the flag. */
    method HandleFileUpload(file: File)
      modifies this`isUploading, this`effects
      ensures !WithinLimit(file.size, maxSize) ==>
                effects == old(effects) + [SizeAlert(maxSize)] && isUploading == old(isUploading)
                && Deliveries(effects) == Deliveries(old(effects))
      ensures WithinLimit(file.size, maxSize) ==>
                effects == old(effects) + [UploadingChanged(true), Delivered(file), UploadingChanged(false)]
                && !isUploading
                && Deliveries(effects) == Deliveries(old(effects)) + [file]
    {
      if file.size as real > maxSize * 1024.0 * 1024.0 {
        DeliveriesAppend(effects, [SizeAlert(maxSize)]);
        effects := effects + [SizeAlert(maxSize)];
        return;
      }
      var upload := [UploadingChanged(true), Delivered(file), UploadingChanged(false)];
      DeliveriesAppend(effects, upload);
      AcceptedUploadDeliversOnce(file);
      isUploading := true;
      effects := effects + [UploadingChanged(true)];
      effects := effects + [Delivered(file)];
      isUploading := false;
      effects := effects + [UploadingChanged(false)];
      assert effects == old(effects) + upload;
    }

    /** `handleDrop`: the flag is cleared, and only the first dropped file,
        if any, goes through `HandleFileUpload`. */
    method Drop(files: seq<File>)
      modifies this`isDragging, this`isUploading, this`effects
      ensures !isDragging
      ensures files == [] ==> effects == old(effects) && isUploading == old(isUploading)
      ensures files != [] && !WithinLimit(files[0].size, maxSize) ==>
                effects == old(effects) + [SizeAlert(maxSize)] && isUploading == old(isUploading)
      ensures files != [] && WithinLimit(files[0].size, maxSize) ==>
                effects == old(effects) + [UploadingChanged(true), Delivered(files[0]), UploadingChanged(false)]
                && Deliveries(effects) == Deliveries(old(effects)) + [files[0]] && !isUploading
    {
      isDragging := false;
      if |files| > 0 {
        HandleFileUpload(files[0]);
      }
    }

    /** `handleFileSelect`: only the first chosen file, if any, goes through
        `HandleFileUpload`; the dragging flag is left alone. */
    method FileSelect(files: seq<File>)
      modifies this`isUploading, this`effects
      ensures files == [] ==> effects == old(effects) && isUploading == old(isUploading)
      ensures files != [] && !WithinLimit(files[0].size, maxSize) ==>
                effects == old(effects) + [SizeAlert(maxSize)] && isUploading == old(isUploading)
      ensures files != [] && WithinLimit(files[0].size, maxSize) ==>
                effects == old(effects) + [UploadingChanged(true), Delivered(files[0]), UploadingChanged(false)]
                && Deliveries(effects) == Deliveries(old(effects)) + [files[0]] && !isUploading
    {
      var first := FirstFile(files);
      if first.Some? {
        HandleFileUpload(first.value);
      }
    }
  }
}
