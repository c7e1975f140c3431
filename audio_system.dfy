/**
 * Provider selection in the sampled-audio entry point `AudioSystem`: the
 * searches over the installed file readers and format converters, the
 * identity shortcut of format conversion, and the gathering of target
 * formats from every converter.
 *
 * The readers and the converter are not modelled: what a reader or a
 * converter answers is a function parameter, and the audio formats and
 * streams are type parameters.
 */
module AudioSystem {
  import opened Wrappers

  /** The installed audio file readers. */
  datatype AudioFileReader = WaveFloatFileReader | WaveExtensibleFileReader

  /** The installed format converters. */
  datatype FormatConversionProvider = AudioFloatFormatConverter

  /** `getAudioFileReaders()`, in the order they are consulted. */
  function AudioFileReaders(): (r: seq<AudioFileReader>)
    ensures WaveFloatFileReader in r && WaveExtensibleFileReader in r
    ensures |r| == 2 && r[0] != r[1]
    ensures r[0] == WaveFloatFileReader
  {
    [WaveFloatFileReader, WaveExtensibleFileReader]
  }

  /** `getFormatConversionProviders()`. */
  function FormatConversionProviders(): (r: seq<FormatConversionProvider>)
    ensures |r| == 1 && AudioFloatFormatConverter in r
  {
    [AudioFloatFormatConverter]
  }

  // ---------------------------------------------------------------------
  // Reader search (getAudioFileFormat and the three getAudioInputStream
  // overloads that read a stream, a File or a URL)
  // ---------------------------------------------------------------------

  /** What one reader does with the source: throws Unsupported, throws IOException, or returns a possibly null result. */
  datatype ReaderResponse<T> = Unsupported | IOFailure | Returned(result: Option<T>)

  /** What the search gives its caller: a result, or one of the two exceptions. */
  datatype Outcome<T> = Found(value: T) | UnsupportedAudioFile(message: string) | IOException

  const FileFormatMessage := "file is not a supported file type"
  const StreamMessage := "could not get audio input stream from input stream"
  const FileMessage := "could not get audio input stream from input file"
  const UrlMessage := "could not get audio input stream from input URL"

  /** The outcome when the search ends on `response` (or on no reader at all, for Unsupported). */
  function Interpret<T>(response: ReaderResponse<T>, message: string): (r: Outcome<T>)
    ensures r.Found? <==> response.Returned? && response.result.Some?
    ensures r.Found? ==> r.value == response.result.value
    ensures r.IOException? <==> response.IOFailure?
    ensures r.UnsupportedAudioFile? ==> r.message == message
  {
    match response
    case Unsupported => UnsupportedAudioFile(message)
    case IOFailure => IOException
    case Returned(None) => UnsupportedAudioFile(message)
    case Returned(Some(v)) => Found(v)
  }

  /** Reference semantics of the search: skip readers that throw Unsupported, stop at the first that does not. */
  function FirstReader<S, T>(readers: seq<AudioFileReader>, source: S,
                             read: (AudioFileReader, S) -> ReaderResponse<T>, message: string): (r: Outcome<T>)
    ensures r.Found? ==> exists i :: 0 <= i < |readers| && read(readers[i], source) == Returned(Some(r.value))
    ensures r.IOException? ==> exists i :: 0 <= i < |readers| && read(readers[i], source).IOFailure?
    ensures r.UnsupportedAudioFile? ==> r.message == message
    ensures (forall i :: 0 <= i < |readers| ==> read(readers[i], source).Unsupported?) ==> r == UnsupportedAudioFile(message)
  {
    if readers == [] then UnsupportedAudioFile(message)
    else if read(readers[0], source).Unsupported? then FirstReader(readers[1..], source, read, message)
    else Interpret(read(readers[0], source), message)
  }

  /** The index of the first reader that does not throw Unsupported, or the number of readers if there is none. */
  function StopIndex<S, T>(readers: seq<AudioFileReader>, source: S, read: (AudioFileReader, S) -> ReaderResponse<T>): (i: nat)
    ensures i <= |readers|
    ensures forall j :: 0 <= j < i ==> read(readers[j], source).Unsupported?
    ensures i < |readers| ==> !read(readers[i], source).Unsupported?
  {
    if readers == [] then 0
    else if read(readers[0], source).Unsupported? then 1 + StopIndex(readers[1..], source, read)
    else 0
  }

  /**
   * The search answers what the first reader that does not throw Unsupported
   * answers, and consults no reader after it. It throws
   * UnsupportedAudioFileException exactly when every reader throws
   * Unsupported or that reader returns null.
   */
  lemma {:induction false} FirstReaderAtStopIndex<S, T>(readers: seq<AudioFileReader>, source: S,
                                                        read: (AudioFileReader, S) -> ReaderResponse<T>, message: string)
    ensures var i := StopIndex(readers, source, read);
      && FirstReader(readers, source, read, message) ==
           (if i == |readers| then UnsupportedAudioFile(message) else Interpret(read(readers[i], source), message))
      && (i < |readers| ==> FirstReader(readers, source, read, message) == FirstReader(readers[..i + 1], source, read, message))
    ensures FirstReader(readers, source, read, message).UnsupportedAudioFile? <==>
      var i := StopIndex(readers, source, read);
      i == |readers| || read(readers[i], source) == Returned(None)
    ensures FirstReader(readers, source, read, message).UnsupportedAudioFile? ==>
      FirstReader(readers, source, read, message).message == message
  {
    if readers != [] && read(readers[0], source).Unsupported? {
      FirstReaderAtStopIndex(readers[1..], source, read, message);
      var i := StopIndex(readers, source, read);
      if i < |readers| {
        assert readers[..i + 1][1..] == readers[1..][..i];
      }
    }
  }

  /**
   * With the installed readers: WaveFloatFileReader decides unless it throws
   * Unsupported, and then WaveExtensibleFileReader decides.
   */
  lemma InstalledReaderOrder<S, T>(source: S, read: (AudioFileReader, S) -> ReaderResponse<T>, message: string)
    ensures FirstReader(AudioFileReaders(), source, read, message) ==
      if read(WaveFloatFileReader, source).Unsupported? then Interpret(read(WaveExtensibleFileReader, source), message)
      else Interpret(read(WaveFloatFileReader, source), message)
  {
    var readers := AudioFileReaders();
    assert readers[1..] == [WaveExtensibleFileReader];
    assert FirstReader(readers[1..][1..], source, read, message) == UnsupportedAudioFile(message);
  }

  /** The loop shared by the four reader searches: `read` is the reader method the caller uses on `source`. */
  method SearchReaders<S, T>(source: S, read: (AudioFileReader, S) -> ReaderResponse<T>, message: string)
    returns (r: Outcome<T>)
    ensures r == FirstReader(AudioFileReaders(), source, read, message)
  {
    var providers := AudioFileReaders();
    var format: Option<T> := None;
    var i := 0;
    while i < |providers|
      invariant 0 <= i <= |providers|
      invariant format == None
      invariant FirstReader(providers[i..], source, read, message) == FirstReader(providers, source, read, message)
    {
      var reader := providers[i];
      var response := read(reader, source);
      assert providers[i..][0] == reader && providers[i..][1..] == providers[i + 1..];
      if response.IOFailure? {
        // the IOException is not caught
        return IOException;
      }
      if response.Returned? {
        format := response.result;
        break;
      }
      // UnsupportedAudioFileException: continue
      i := i + 1;
    }
    if format == None {
      r := UnsupportedAudioFile(message);
    } else {
      r := Found(format.value);
    }
  }

  /** `getAudioFileFormat(InputStream)`; `read` stands for `reader.getAudioFileFormat(stream)`. */
  method GetAudioFileFormat<S, F>(stream: S, read: (AudioFileReader, S) -> ReaderResponse<F>) returns (r: Outcome<F>)
    ensures r == FirstReader(AudioFileReaders(), stream, read, FileFormatMessage)
  {
    r := SearchReaders(stream, read, FileFormatMessage);
  }

  /** `getAudioInputStream(InputStream)`; `read` stands for `reader.getAudioInputStream(stream)`. */
  method GetAudioInputStream<S, A>(stream: S, read: (AudioFileReader, S) -> ReaderResponse<A>) returns (r: Outcome<A>)
    ensures r == FirstReader(AudioFileReaders(), stream, read, StreamMessage)
  {
    r := SearchReaders(stream, read, StreamMessage);
  }

  /** `getAudioInputStream(File)`; `read` stands for `reader.getAudioInputStream(file)`. */
  method GetAudioInputStreamFromFile<P, A>(file: P, read: (AudioFileReader, P) -> ReaderResponse<A>) returns (r: Outcome<A>)
    ensures r == FirstReader(AudioFileReaders(), file, read, FileMessage)
  {
    r := SearchReaders(file, read, FileMessage);
  }

  /** `getAudioInputStream(URL)`; `read` stands for `reader.getAudioInputStream(url)`. */
  method GetAudioInputStreamFromUrl<U, A>(url: U, read: (AudioFileReader, U) -> ReaderResponse<A>) returns (r: Outcome<A>)
    ensures r == FirstReader(AudioFileReaders(), url, read, UrlMessage)
  {
    r := SearchReaders(url, read, UrlMessage);
  }

  // ---------------------------------------------------------------------
  // Format conversion: getAudioInputStream(AudioFormat, AudioInputStream)
  // ---------------------------------------------------------------------

  /** What the conversion needs to know about formats, streams and converters. */
  datatype Converters<!F, !S> = Converters(
    formatOf: S -> F,                                                // AudioInputStream.getFormat()
    matches: (F, F) -> bool,                                         // format.matches(other)
    isConversionSupported: (FormatConversionProvider, F, F) -> bool, // codec.isConversionSupported(target, source)
    convert: (FormatConversionProvider, F, S) -> S)                  // codec.getAudioInputStream(target, stream)

  /** The converted stream, or the IllegalArgumentException naming both formats. */
  datatype Conversion<F, S> = Converted(stream: S) | UnsupportedConversion(target: F, source: F)

  /** Reference semantics of the converter search. */
  function FirstCodec<F, S>(codecs: seq<FormatConversionProvider>, target: F, stream: S, c: Converters<F, S>): (r: Conversion<F, S>)
    ensures r.Converted? ==>
      exists i :: 0 <= i < |codecs| && c.isConversionSupported(codecs[i], target, c.formatOf(stream)) && r.stream == c.convert(codecs[i], target, stream)
    ensures r.UnsupportedConversion? <==> forall i :: 0 <= i < |codecs| ==> !c.isConversionSupported(codecs[i], target, c.formatOf(stream))
    ensures r.UnsupportedConversion? ==> r.target == target && r.source == c.formatOf(stream)
  {
    if codecs == [] then UnsupportedConversion(target, c.formatOf(stream))
    else if c.isConversionSupported(codecs[0], target, c.formatOf(stream)) then Converted(c.convert(codecs[0], target, stream))
    else FirstCodec(codecs[1..], target, stream, c)
  }

  /** The whole conversion: the source stream itself when its format already matches. */
  function Convert<F, S>(codecs: seq<FormatConversionProvider>, target: F, stream: S, c: Converters<F, S>): (r: Conversion<F, S>)
    ensures c.matches(c.formatOf(stream), target) ==> r == Converted(stream)
    ensures r.UnsupportedConversion? ==> !c.matches(c.formatOf(stream), target) && r.target == target && r.source == c.formatOf(stream)
  {
    if c.matches(c.formatOf(stream), target) then Converted(stream) else FirstCodec(codecs, target, stream, c)
  }

  /** The index of the first converter that supports the pair, or the number of converters if none does. */
  function FirstSupporting<F, S>(codecs: seq<FormatConversionProvider>, target: F, stream: S, c: Converters<F, S>): (i: nat)
    ensures i <= |codecs|
    ensures forall j :: 0 <= j < i ==> !c.isConversionSupported(codecs[j], target, c.formatOf(stream))
    ensures i < |codecs| ==> c.isConversionSupported(codecs[i], target, c.formatOf(stream))
  {
    if codecs == [] then 0
    else if c.isConversionSupported(codecs[0], target, c.formatOf(stream)) then 0
    else 1 + FirstSupporting(codecs[1..], target, stream, c)
  }

  /**
   * A conversion that is needed uses the first converter that supports the
   * pair, and throws IllegalArgumentException exactly when none does.
   */
  lemma {:induction false} ConvertUsesFirstSupporting<F, S>(codecs: seq<FormatConversionProvider>, target: F, stream: S, c: Converters<F, S>)
    ensures c.matches(c.formatOf(stream), target) ==> Convert(codecs, target, stream, c) == Converted(stream)
    ensures !c.matches(c.formatOf(stream), target) ==>
      var i := FirstSupporting(codecs, target, stream, c);
      Convert(codecs, target, stream, c) ==
        if i == |codecs| then UnsupportedConversion(target, c.formatOf(stream))
        else Converted(c.convert(codecs[i], target, stream))
    ensures Convert(codecs, target, stream, c).UnsupportedConversion? <==>
      !c.matches(c.formatOf(stream), target) &&
      forall j :: 0 <= j < |codecs| ==> !c.isConversionSupported(codecs[j], target, c.formatOf(stream))
  {
    FirstCodecAtFirstSupporting(codecs, target, stream, c);
  }

  lemma {:induction false} FirstCodecAtFirstSupporting<F, S>(codecs: seq<FormatConversionProvider>, target: F, stream: S, c: Converters<F, S>)
    ensures var i := FirstSupporting(codecs, target, stream, c);
      FirstCodec(codecs, target, stream, c) ==
        if i == |codecs| then UnsupportedConversion(target, c.formatOf(stream))
        else Converted(c.convert(codecs[i], target, stream))
  {
    if codecs != [] && !c.isConversionSupported(codecs[0], target, c.formatOf(stream)) {
      FirstCodecAtFirstSupporting(codecs[1..], target, stream, c);
    }
  }

  /** `getAudioInputStream(AudioFormat, AudioInputStream)`. */
  method GetConvertedAudioInputStream<F, S>(targetFormat: F, sourceStream: S, c: Converters<F, S>) returns (r: Conversion<F, S>)
    ensures r == Convert(FormatConversionProviders(), targetFormat, sourceStream, c)
  {
    if c.matches(c.formatOf(sourceStream), targetFormat) {
      return Converted(sourceStream);
    }
    var codecs := FormatConversionProviders();
    for i := 0 to |codecs|
      invariant FirstCodec(codecs[i..], targetFormat, sourceStream, c) == FirstCodec(codecs, targetFormat, sourceStream, c)
    {
      var codec := codecs[i];
      assert codecs[i..][0] == codec && codecs[i..][1..] == codecs[i + 1..];
      if c.isConversionSupported(codec, targetFormat, c.formatOf(sourceStream)) {
        return Converted(c.convert(codec, targetFormat, sourceStream));
      }
    }
    // no installed converter supports the pair
    assert codecs[|codecs|..] == [];
    r := UnsupportedConversion(targetFormat, c.formatOf(sourceStream));
  }

  // ---------------------------------------------------------------------
  // getTargetFormats
  // ---------------------------------------------------------------------

  /** The lists joined end to end, in order. */
  function Concat<F>(lists: seq<seq<F>>): (r: seq<F>)
    ensures forall k, j :: 0 <= k < |lists| && 0 <= j < |lists[k]| ==> lists[k][j] in r
    ensures forall p :: 0 <= p < |r| ==> exists k :: 0 <= k < |lists| && r[p] in lists[k]
  {
    if lists == [] then [] else Concat(lists[..|lists| - 1]) + lists[|lists| - 1]
  }

  /** The sum of the lengths of the lists. */
  function TotalLength<F>(lists: seq<seq<F>>): nat
  {
    if lists == [] then 0 else TotalLength(lists[..|lists| - 1]) + |lists[|lists| - 1]|
  }

  /** The target-format array of each converter, in converter order. */
  function TargetFormatLists<E, F>(codecs: seq<FormatConversionProvider>, targetEncoding: E, sourceFormat: F,
                                   targets: (FormatConversionProvider, E, F) -> seq<F>): (r: seq<seq<F>>)
    ensures |r| == |codecs|
    ensures forall k :: 0 <= k < |codecs| ==> r[k] == targets(codecs[k], targetEncoding, sourceFormat)
  {
    seq(|codecs|, k requires 0 <= k < |codecs| => targets(codecs[k], targetEncoding, sourceFormat))
  }

  /** The joined list is as long as all lists together. */
  lemma {:induction false} ConcatLength<F>(lists: seq<seq<F>>)
    ensures |Concat(lists)| == TotalLength(lists)
    decreases |lists|
  {
    if lists != [] {
      ConcatLength(lists[..|lists| - 1]);
    }
  }

  /** A prefix of the lists is no longer in total than all of them. */
  lemma {:induction false} TotalLengthOfPrefix<F>(lists: seq<seq<F>>, i: nat)
    requires i <= |lists|
    ensures TotalLength(lists[..i]) <= TotalLength(lists)
    decreases |lists|
  {
    if i < |lists| {
      var init := lists[..|lists| - 1];
      assert lists[..i] == init[..i];
      TotalLengthOfPrefix(init, i);
    } else {
      assert lists[..i] == lists;
    }
  }

  /** Joining two runs of lists is joining each run and then the results. */
  lemma {:induction false} ConcatAppend<F>(a: seq<seq<F>>, b: seq<seq<F>>)
    ensures Concat(a + b) == Concat(a) + Concat(b)
    decreases |b|
  {
    if b == [] {
      assert a + b == a;
    } else {
      var b' := b[..|b| - 1];
      assert (a + b)[..|a + b| - 1] == a + b';
      assert (a + b)[|a + b| - 1] == b[|b| - 1];
      ConcatAppend(a, b');
    }
  }

  /**
   * Each list appears unchanged in the joined list, right after all the lists
   * before it: the joined list keeps the order of the lists and the order
   * within each list.
   */
  lemma ConcatPlacesEachList<F>(lists: seq<seq<F>>, k: nat)
    requires k < |lists|
    ensures var offset := TotalLength(lists[..k]);
      && offset + |lists[k]| <= |Concat(lists)|
      && Concat(lists)[offset..offset + |lists[k]|] == lists[k]
  {
    var before, after := lists[..k], lists[k + 1..];
    assert lists == before + [lists[k]] + after;
    assert (before + [lists[k]])[..k] == before;
    ConcatAppend(before + [lists[k]], after);
    ConcatLength(before);
    assert Concat(before + [lists[k]]) == Concat(before) + lists[k];
  }

  /** With the one installed converter, the result is exactly that converter's target formats. */
  lemma InstalledTargetFormats<E, F>(targetEncoding: E, sourceFormat: F, targets: (FormatConversionProvider, E, F) -> seq<F>)
    ensures Concat(TargetFormatLists(FormatConversionProviders(), targetEncoding, sourceFormat, targets)) ==
      targets(AudioFloatFormatConverter, targetEncoding, sourceFormat)
  {
    var lists := TargetFormatLists(FormatConversionProviders(), targetEncoding, sourceFormat, targets);
    assert lists[..0] == [];
  }

  /**
   * `getTargetFormats(targetEncoding, sourceFormat)`: gathers every
   * converter's target formats and their total count, then copies them into
   * one new array of that size.
   */
  method GetTargetFormats<E, F(0)>(targetEncoding: E, sourceFormat: F, targets: (FormatConversionProvider, E, F) -> seq<F>)
    returns (fmts2: array<F>)
    ensures fresh(fmts2)
    ensures fmts2.Length == TotalLength(TargetFormatLists(FormatConversionProviders(), targetEncoding, sourceFormat, targets))
    ensures fmts2[..] == Concat(TargetFormatLists(FormatConversionProviders(), targetEncoding, sourceFormat, targets))
  {
    var codecs := FormatConversionProviders();
    ghost var lists := TargetFormatLists(codecs, targetEncoding, sourceFormat, targets);
    var formats: seq<seq<F>> := [];
    var size := 0;
    var index := 0;

    // collect each converter's array and the running total
    for i := 0 to |codecs|
      invariant formats == lists[..i]
      invariant size == TotalLength(formats)
    {
      var fmts := targets(codecs[i], targetEncoding, sourceFormat);
      assert (formats + [fmts])[..i] == formats;
      size := size + |fmts|;
      formats := formats + [fmts];
      assert formats == lists[..i + 1];
    }
    assert formats == lists;

    // copy the arrays, in order, into one array of that total length
    fmts2 := new F[size];
    for i := 0 to |formats|
      invariant index == TotalLength(formats[..i]) <= size
      invariant fmts2[..index] == Concat(formats[..i])
    {
      var fmts := formats[i];
      assert formats[..i + 1][..i] == formats[..i];
      TotalLengthOfPrefix(formats, i + 1);
      for j := 0 to |fmts|
        invariant index == TotalLength(formats[..i]) + j
        invariant fmts2[..index] == Concat(formats[..i]) + fmts[..j]
      {
        fmts2[index] := fmts[j];
        index := index + 1;
        assert fmts[..j + 1] == fmts[..j] + [fmts[j]];
      }
      assert fmts[..|fmts|] == fmts;
    }
    assert formats[..|formats|] == formats;
    assert fmts2[..] == fmts2[..index];
  }
}
