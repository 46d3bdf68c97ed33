/**
 * The background icon download started for each ICON asset: `loadBitmapFromAsset`
 * on the worker thread, then `onPostExecute` on the render thread, which stores the
 * bitmap scaled to the icon size.
 *
 * The data-layer stream lookup (`getFdForAsset(...).await().getInputStream()`) and
 * the bitmap codec (`BitmapFactory.decodeStream`) are not part of this model; their
 * outcomes are parameters.
 */
module IconFetch {
  import opened Wrappers
  import opened WeatherSync

  /** The side, in pixels, of the square the icon is scaled to. */
  const ICON_SIZE: nat := 60

  /** A decoded raster image; only its dimensions matter to the face. */
  datatype Bitmap = Bitmap(width: nat, height: nat)

  /** The byte stream the data layer opens for an asset. */
  datatype Stream = Stream(bytes: seq<bv8>)

  /**
   * Faults that end the process: a null asset handed to the background download
   * (IllegalArgumentException), a null bitmap handed to the scaler (NullPointerException).
   */
  datatype Fault = NullAsset | NullBitmap

  /** A bitmap is an icon the face can draw when it has the fixed icon size. */
  predicate IsIcon(b: Bitmap) {
    b.width == ICON_SIZE && b.height == ICON_SIZE
  }

  /**
   * `loadBitmapFromAsset`: fails on a null asset; yields no bitmap when the client is not
   * connected or the data layer has no stream for the asset; otherwise whatever the codec decodes.
   */
  function LoadBitmapFromAsset(
    asset: Option<Asset>, connected: bool, stream: Option<Stream>, decode: Stream -> Option<Bitmap>)
    : (r: Result<Option<Bitmap>, Fault>)
    ensures r.Failure? <==> asset.None?
    ensures r.Failure? ==> r.error == NullAsset
    ensures r.Success? && r.value.Some? <==> asset.Some? && connected && stream.Some? && decode(stream.value).Some?
    ensures r.Success? && r.value.Some? ==> r.value == decode(stream.value)
  {
    if asset.None? then Failure(NullAsset)
    else if !connected then Success(None)
    else if stream.None? then Success(None)
    else Success(decode(stream.value))
  }

  /** `Bitmap.createScaledBitmap(b, 60, 60, false)`. */
  function ScaleToIcon(b: Bitmap): (r: Bitmap)
    ensures IsIcon(r)
  {
    Bitmap(ICON_SIZE, ICON_SIZE)
  }

  /**
   * `onPostExecute` as written: the result of the download is scaled unconditionally, so a
   * download that produced no bitmap ends in a NullPointerException instead of being skipped.
   */
  function PostExecuteAsWritten(b: Option<Bitmap>): (r: Result<Bitmap, Fault>)
    ensures r.Success? <==> b.Some?
  {
    if b.Some? then Success(ScaleToIcon(b.value)) else Failure(NullBitmap)
  }

  /** The failing input: a download that found no bitmap crashes the as-written completion. */
  lemma PostExecuteAsWrittenCrashesWithoutBitmap(connected: bool, stream: Option<Stream>, decode: Stream -> Option<Bitmap>, a: Asset)
    requires !connected || stream.None? || decode(stream.value).None?
    ensures LoadBitmapFromAsset(Some(a), connected, stream, decode) == Success(None)
    ensures PostExecuteAsWritten(None) == Failure(NullBitmap)
  {
  }

  /**
   * `onPostExecute` as intended: a download that produced a bitmap replaces the icon with it,
   * scaled; a download that produced none is skipped and the previous icon stays.
   */
  function PostExecute(icon: Option<Bitmap>, b: Option<Bitmap>): (r: Option<Bitmap>)
    ensures b.Some? ==> r == Some(ScaleToIcon(b.value))
    ensures b.None? ==> r == icon
    ensures (icon.None? || IsIcon(icon.value)) ==> (r.None? || IsIcon(r.value))
    ensures icon.Some? ==> r.Some?
  {
    if b.Some? then Some(ScaleToIcon(b.value)) else icon
  }
}
