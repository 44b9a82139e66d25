/**
 * GlObjects::TextureLoader: builds textures from uncompressed 24- and 32-bit
 * TGA files. Every failure (a missing or unreadable file, a pixel format it
 * does not accept, a buffer that cannot be allocated, a mip level that does
 * not match level 0) is caught, the partial texture is deleted and the result
 * is null, modelled here as `None` or a null reference.
 *
 * The TGA reader is not part of this model: a file is its header and whether
 * reading its pixels succeeds; the files that can be opened are a map from
 * name to file. Allocations of up to `heapLimit` bytes succeed.
 */
module TgaTextureLoader {
  import opened Wrappers
  import opened Gl

  /** TgaFile::IMAGE_TRUECOLOR: the TGA image type of uncompressed true-colour data. */
  const ImageTrueColor: nat := 2

  /** The TgaFile members the loader reads. */
  datatype TgaHeader = TgaHeader(imageType: nat, width: nat, height: nat, depth: int, alphaDepth: int)

  /** An opened TGA file and the outcome of TgaFile::Read on it. */
  datatype TgaFile = TgaFile(header: TgaHeader, readOk: bool)

  /** Bytes per texel and the GL format of the client data. */
  datatype Layout = Layout(texelSize: nat, format: PixelFormat)

  /** The format rule shared by all three loaders (TextureLoader.cpp, lines 71-91). */
  function TexelLayout(h: TgaHeader): (r: Option<Layout>)
    ensures r == Some(Layout(4, BgraExt)) <==> h.imageType == ImageTrueColor && h.depth == 32 && h.alphaDepth == 8
    ensures r == Some(Layout(3, BgrExt)) <==> h.imageType == ImageTrueColor && h.depth == 24 && h.alphaDepth == 0
    ensures r.None? <==> !(h.imageType == ImageTrueColor &&
                           ((h.depth == 32 && h.alphaDepth == 8) || (h.depth == 24 && h.alphaDepth == 0)))
    ensures r.Some? ==> r.value.texelSize * 8 == h.depth
  {
    if h.imageType == ImageTrueColor then
      if h.depth == 32 && h.alphaDepth == 8 then Some(Layout(4, BgraExt))
      else if h.depth == 24 && h.alphaDepth == 0 then Some(Layout(3, BgrExt))
      else None
    else None
  }

  /** The size of the temporary image buffer: one texelSize-byte texel per pixel. */
  function BufferSize(h: TgaHeader, texelSize: nat): nat
  {
    h.width * h.height * texelSize
  }

  /** Allocates the image buffer and reads the file into it. */
  function ReadPixels(name: string, file: TgaFile, texelSize: nat, heapLimit: nat): (r: Option<Image>)
    ensures r.Some? <==> BufferSize(file.header, texelSize) <= heapLimit && file.readOk
    ensures r.Some? ==> r.value == Image(name, BufferSize(file.header, texelSize))
  {
    var size := BufferSize(file.header, texelSize);
    if size <= heapLimit && file.readOk then Some(Image(name, size)) else None
  }

  /**
   * TextureLoader::Load as the source writes it: the texture is created from
   * the image buffer's pointer before the buffer is allocated, so it is
   * created without pixels, and the pixels read afterwards are thrown away.
   */
  function LoadAsWritten(files: map<string, TgaFile>, heapLimit: nat, name: string,
                         wrap: nat := GL_REPEAT, minFilter: nat := GL_LINEAR, magFilter: nat := GL_LINEAR,
                         id: nat := 0): (r: Option<Texture>)
    ensures r.Some? <==> name in files && TexelLayout(files[name].header).Some? &&
                         BufferSize(files[name].header, TexelLayout(files[name].header).value.texelSize) <= heapLimit &&
                         files[name].readOk
    ensures r.Some? ==>
              var h := files[name].header;
              r.value.width == h.width && r.value.height == h.height &&
              r.value.format == TexelLayout(h).value.format &&
              r.value.wrap == wrap && r.value.minFilter == minFilter && r.value.magFilter == magFilter &&
              r.value.id == id && r.value.image == None
  {
    if name !in files then None
    else
      var file := files[name];
      match TexelLayout(file.header)
      case None => None
      case Some(layout) =>
        var texture := Texture(file.header.width, file.header.height, layout.format,
                               wrap, minFilter, magFilter, id, None);
        match ReadPixels(name, file, layout.texelSize, heapLimit)
        case None => None
        case Some(_) => Some(texture)
  }

  /**
   * TextureLoader::Load as intended: a texture of the file's size and format
   * holding the pixels read from it, or None when anything fails.
   */
  function Load(files: map<string, TgaFile>, heapLimit: nat, name: string,
                wrap: nat := GL_REPEAT, minFilter: nat := GL_LINEAR, magFilter: nat := GL_LINEAR, id: nat := 0): (r: Option<Texture>)
    ensures r.Some? <==> name in files && TexelLayout(files[name].header).Some? &&
                         BufferSize(files[name].header, TexelLayout(files[name].header).value.texelSize) <= heapLimit &&
                         files[name].readOk
    ensures r.Some? ==>
              var h := files[name].header;
              var layout := TexelLayout(h).value;
              r.value.width == h.width && r.value.height == h.height && r.value.format == layout.format &&
              r.value.wrap == wrap && r.value.minFilter == minFilter && r.value.magFilter == magFilter &&
              r.value.id == id && r.value.image == Some(Image(name, h.width * h.height * layout.texelSize))
  {
    if name !in files then None
    else
      var file := files[name];
      match TexelLayout(file.header)
      case None => None
      case Some(layout) =>
        match ReadPixels(name, file, layout.texelSize, heapLimit)
        case None => None
        case Some(image) =>
          Some(Texture(file.header.width, file.header.height, layout.format,
                       wrap, minFilter, magFilter, id, Some(image)))
  }

  /** The source's Load succeeds exactly when the intended one does, and then differs only in the missing pixels. */
  lemma LoadAsWrittenDropsPixels(files: map<string, TgaFile>, heapLimit: nat, name: string,
                                 wrap: nat, minFilter: nat, magFilter: nat, id: nat)
    ensures var written := LoadAsWritten(files, heapLimit, name, wrap, minFilter, magFilter, id);
            var intended := Load(files, heapLimit, name, wrap, minFilter, magFilter, id);
            (written.Some? <==> intended.Some?) &&
            (written.Some? ==> written.value.image == None && written.value == intended.value.(image := None))
  {
  }

  /** A 1 x 1 24-bit file that reads without error: the source's Load still returns a texture without its pixels. */
  lemma LoadAsWrittenLosesReadPixels()
    ensures var files := map["sky.tga" := TgaFile(TgaHeader(ImageTrueColor, 1, 1, 24, 0), true)];
            var written := LoadAsWritten(files, 3, "sky.tga", GL_REPEAT, GL_LINEAR, GL_LINEAR, 0);
            var intended := Load(files, 3, "sky.tga", GL_REPEAT, GL_LINEAR, GL_LINEAR, 0);
            written.Some? && written.value.image == None &&
            intended.Some? && intended.value.image == Some(Image("sky.tga", 3))
  {
    var files := map["sky.tga" := TgaFile(TgaHeader(ImageTrueColor, 1, 1, 24, 0), true)];
    assert TexelLayout(files["sky.tga"].header) == Some(Layout(3, BgrExt));
  }

  /**
   * Called with only a file name, the loaders use the header's defaults:
   * GL_REPEAT wrapping, GL_LINEAR magnification, id 0, and GL_LINEAR
   * minification for a plain texture but GL_LINEAR_MIPMAP_LINEAR for the
   * mip-mapped ones.
   */
  lemma DefaultLoadParameters(files: map<string, TgaFile>, heapLimit: nat, name: string, names: seq<string>)
    requires |names| > 0
    ensures var t := LoadAsWritten(files, heapLimit, name);
            t.Some? ==> t.value.wrap == GL_REPEAT && t.value.minFilter == GL_LINEAR &&
                        t.value.magFilter == GL_LINEAR && t.value.id == 0
    ensures var m := LoadMipMappedSpec(files, heapLimit, name);
            m.Some? ==> m.value.wrap == GL_REPEAT && m.value.minFilter == GL_LINEAR_MIPMAP_LINEAR &&
                        m.value.magFilter == GL_LINEAR && m.value.id == 0
    ensures var m := LoadLevelsSpec(files, heapLimit, names);
            m.Some? ==> m.value.wrap == GL_REPEAT && m.value.minFilter == GL_LINEAR_MIPMAP_LINEAR &&
                        m.value.magFilter == GL_LINEAR && m.value.id == 0
  {
  }

  /** One mip level: its index and its pixels. */
  datatype MipLevel = MipLevel(level: nat, image: Image)

  /** The value of a Glx::MipMappedTexture as the loaders leave it. */
  datatype MipTexture = MipTexture(width: nat, height: nat, format: PixelFormat,
                                   wrap: nat, minFilter: nat, magFilter: nat, id: nat,
                                   levels: seq<MipLevel>, generatedFrom: Option<Image>)

  /**
   * Glx::MipMappedTexture, reduced to what the loaders do with it: the mip
   * levels added one by one, or the image all levels were generated from.
   */
  class MipMappedTexture {
    const width: nat
    const height: nat
    const format: PixelFormat
    const wrap: nat
    const minFilter: nat
    const magFilter: nat
    const id: nat
    var levels: seq<MipLevel>
    var generatedFrom: Option<Image>

    function Value(): MipTexture
      reads this
    {
      MipTexture(width, height, format, wrap, minFilter, magFilter, id, levels, generatedFrom)
    }

    constructor (width: nat, height: nat, format: PixelFormat, wrap: nat, minFilter: nat, magFilter: nat, id: nat)
      ensures Value() == MipTexture(width, height, format, wrap, minFilter, magFilter, id, [], None)
    {
      this.width, this.height, this.format := width, height, format;
      this.wrap, this.minFilter, this.magFilter, this.id := wrap, minFilter, magFilter, id;
      levels, generatedFrom := [], None;
    }

    /** AddMipMap(level, data): one more level, after those already added. */
    method AddMipMap(level: nat, image: Image)
      modifies this
      ensures Value() == old(Value()).(levels := old(levels) + [MipLevel(level, image)])
    {
      levels := levels + [MipLevel(level, image)];
    }

    /** BuildAllMipMaps(data): every level generated from one image. */
    method BuildAllMipMaps(image: Image)
      modifies this
      ensures Value() == old(Value()).(generatedFrom := Some(image))
    {
      generatedFrom := Some(image);
    }
  }

  /** TextureLoader::LoadMipMapped(sFileName, ...): all levels generated from the one file's pixels. */
  function LoadMipMappedSpec(files: map<string, TgaFile>, heapLimit: nat, name: string,
                             wrap: nat := GL_REPEAT, minFilter: nat := GL_LINEAR_MIPMAP_LINEAR,
                             magFilter: nat := GL_LINEAR, id: nat := 0): (r: Option<MipTexture>)
    ensures r.Some? <==> name in files && TexelLayout(files[name].header).Some? &&
                         BufferSize(files[name].header, TexelLayout(files[name].header).value.texelSize) <= heapLimit &&
                         files[name].readOk
    ensures r.Some? ==>
              var h := files[name].header;
              r.value.width == h.width && r.value.height == h.height && r.value.levels == [] &&
              r.value.generatedFrom == Some(Image(name, BufferSize(h, TexelLayout(h).value.texelSize)))
  {
    if name !in files then None
    else
      var file := files[name];
      match TexelLayout(file.header)
      case None => None
      case Some(layout) =>
        match ReadPixels(name, file, layout.texelSize, heapLimit)
        case None => None
        case Some(image) =>
          Some(MipTexture(file.header.width, file.header.height, layout.format,
                          wrap, minFilter, magFilter, id, [], Some(image)))
  }

  /**
   * The single-file mip-mapped loader fails exactly when Load fails, and
   * generates its levels from the very pixels Load delivers.
   */
  lemma LoadMipMappedAgreesWithLoad(files: map<string, TgaFile>, heapLimit: nat, name: string,
                                    wrap: nat, minFilter: nat, magFilter: nat, id: nat)
    ensures var m := LoadMipMappedSpec(files, heapLimit, name, wrap, minFilter, magFilter, id);
            var t := Load(files, heapLimit, name, wrap, minFilter, magFilter, id);
            (m.Some? <==> t.Some?) &&
            (m.Some? ==> m.value.generatedFrom == t.value.image && m.value.levels == [] &&
                         m.value.width == t.value.width && m.value.height == t.value.height &&
                         m.value.format == t.value.format)
  {
  }

  method LoadMipMapped(files: map<string, TgaFile>, heapLimit: nat, name: string,
                       wrap: nat := GL_REPEAT, minFilter: nat := GL_LINEAR_MIPMAP_LINEAR,
                       magFilter: nat := GL_LINEAR, id: nat := 0) returns (t: MipMappedTexture?)
    ensures t == null <==> LoadMipMappedSpec(files, heapLimit, name, wrap, minFilter, magFilter, id).None?
    ensures t != null ==> fresh(t) && t.Value() == LoadMipMappedSpec(files, heapLimit, name, wrap, minFilter, magFilter, id).value
  {
    if name !in files {
      return null;
    }
    var file := files[name];
    var layout := TexelLayout(file.header);
    if layout.None? {
      return null;
    }
    var texture := new MipMappedTexture(file.header.width, file.header.height, layout.value.format,
                                        wrap, minFilter, magFilter, id);
    var image := ReadPixels(name, file, layout.value.texelSize, heapLimit);
    if image.None? {
      return null;
    }
    texture.BuildAllMipMaps(image.value);
    t := texture;
  }

  /**
   * One level i >= 1 of the multi-file loader: it must be true colour with
   * level 0's depth and alpha depth, and its buffer is sized with level 0's
   * texel size (TextureLoader.cpp, lines 305-326).
   */
  function LevelImage(files: map<string, TgaFile>, heapLimit: nat, name: string,
                      first: TgaHeader, texelSize: nat): (r: Option<Image>)
    ensures r.Some? <==> name in files && files[name].header.imageType == ImageTrueColor &&
                         files[name].header.depth == first.depth &&
                         files[name].header.alphaDepth == first.alphaDepth &&
                         BufferSize(files[name].header, texelSize) <= heapLimit && files[name].readOk
    ensures r.Some? ==> r.value == Image(name, BufferSize(files[name].header, texelSize))
  {
    if name !in files then None
    else
      var file := files[name];
      if file.header.imageType != ImageTrueColor || file.header.depth != first.depth ||
         file.header.alphaDepth != first.alphaDepth then None
      else ReadPixels(name, file, texelSize, heapLimit)
  }

  /** Levels 1 .. k-1 of the multi-file loader, in the order the loop adds them, or None at the first failure. */
  function LaterLevels(files: map<string, TgaFile>, heapLimit: nat, names: seq<string>,
                       first: TgaHeader, texelSize: nat, k: nat): (r: Option<seq<MipLevel>>)
    requires 1 <= k <= |names|
    ensures r.Some? ==> |r.value| == k - 1
  {
    if k == 1 then Some([])
    else
      match LaterLevels(files, heapLimit, names, first, texelSize, k - 1)
      case None => None
      case Some(done) =>
        match LevelImage(files, heapLimit, names[k - 1], first, texelSize)
        case None => None
        case Some(image) => Some(done + [MipLevel(k - 1, image)])
  }

  /** The loop gets through level k-1 exactly when every level from 1 to k-1 loads. */
  lemma {:induction false} LaterLevelsSucceedIff(files: map<string, TgaFile>, heapLimit: nat, names: seq<string>,
                                                 first: TgaHeader, texelSize: nat, k: nat)
    requires 1 <= k <= |names|
    ensures LaterLevels(files, heapLimit, names, first, texelSize, k).Some? <==>
            forall i :: 1 <= i < k ==> LevelImage(files, heapLimit, names[i], first, texelSize).Some?
  {
    if k > 1 {
      LaterLevelsSucceedIff(files, heapLimit, names, first, texelSize, k - 1);
    }
  }

  /** The levels the loop added are levels 1 .. k-1, in increasing order, each holding its own file's pixels. */
  lemma {:induction false} LaterLevelsInOrder(files: map<string, TgaFile>, heapLimit: nat, names: seq<string>,
                                              first: TgaHeader, texelSize: nat, k: nat)
    requires 1 <= k <= |names|
    requires LaterLevels(files, heapLimit, names, first, texelSize, k).Some?
    ensures var done := LaterLevels(files, heapLimit, names, first, texelSize, k).value;
            |done| == k - 1 &&
            forall j :: 0 <= j < k - 1 ==>
              done[j].level == j + 1 &&
              LevelImage(files, heapLimit, names[j + 1], first, texelSize) == Some(done[j].image)
  {
    if k > 1 {
      LaterLevelsInOrder(files, heapLimit, names, first, texelSize, k - 1);
    }
  }

  /** TextureLoader::LoadMipMapped(pasFileNames, nLevels, ...): level 0 fixes the size and format, every file adds one level. */
  function LoadLevelsSpec(files: map<string, TgaFile>, heapLimit: nat, names: seq<string>,
                          wrap: nat := GL_REPEAT, minFilter: nat := GL_LINEAR_MIPMAP_LINEAR,
                          magFilter: nat := GL_LINEAR, id: nat := 0): (r: Option<MipTexture>)
    requires |names| > 0
    ensures r.Some? ==>
              names[0] in files && TexelLayout(files[names[0]].header).Some? &&
              var h := files[names[0]].header;
              r.value.width == h.width && r.value.height == h.height &&
              r.value.format == TexelLayout(h).value.format && r.value.generatedFrom == None &&
              |r.value.levels| == |names| &&
              r.value.levels[0] == MipLevel(0, Image(names[0], BufferSize(h, TexelLayout(h).value.texelSize)))
  {
    if names[0] !in files then None
    else
      var file := files[names[0]];
      match TexelLayout(file.header)
      case None => None
      case Some(layout) =>
        match ReadPixels(names[0], file, layout.texelSize, heapLimit)
        case None => None
        case Some(image) =>
          match LaterLevels(files, heapLimit, names, file.header, layout.texelSize, |names|)
          case None => None
          case Some(rest) =>
            Some(MipTexture(file.header.width, file.header.height, layout.format,
                            wrap, minFilter, magFilter, id, [MipLevel(0, image)] + rest, None))
  }

  /**
   * The multi-file loader returns a texture exactly when level 0 loads as a
   * plain texture would and every later level loads consistently with it.
   */
  lemma LoadLevelsSucceedIff(files: map<string, TgaFile>, heapLimit: nat, names: seq<string>,
                             wrap: nat, minFilter: nat, magFilter: nat, id: nat)
    requires |names| > 0
    ensures LoadLevelsSpec(files, heapLimit, names, wrap, minFilter, magFilter, id).Some? <==>
            Load(files, heapLimit, names[0], wrap, minFilter, magFilter, id).Some? &&
            var first := files[names[0]].header;
            forall i :: 1 <= i < |names| ==>
              LevelImage(files, heapLimit, names[i], first, TexelLayout(first).value.texelSize).Some?
  {
    if names[0] in files && TexelLayout(files[names[0]].header).Some? {
      var first := files[names[0]].header;
      LaterLevelsSucceedIff(files, heapLimit, names, first, TexelLayout(first).value.texelSize, |names|);
    }
  }

  /**
   * A texture from the multi-file loader has one level per file, numbered
   * 0 .. nLevels-1 in order, every file true colour with level 0's depth and
   * alpha depth, and each level holding width * height * texelSize bytes of
   * its own file.
   */
  lemma LoadLevelsShape(files: map<string, TgaFile>, heapLimit: nat, names: seq<string>,
                        wrap: nat, minFilter: nat, magFilter: nat, id: nat)
    requires |names| > 0
    requires LoadLevelsSpec(files, heapLimit, names, wrap, minFilter, magFilter, id).Some?
    ensures var t := LoadLevelsSpec(files, heapLimit, names, wrap, minFilter, magFilter, id).value;
            var first := files[names[0]].header;
            |t.levels| == |names| && t.generatedFrom == None &&
            t.width == first.width && t.height == first.height &&
            forall i :: 0 <= i < |names| ==>
              names[i] in files &&
              files[names[i]].header.imageType == ImageTrueColor &&
              files[names[i]].header.depth == first.depth &&
              files[names[i]].header.alphaDepth == first.alphaDepth &&
              t.levels[i] == MipLevel(i, Image(names[i], BufferSize(files[names[i]].header,
                                                                      TexelLayout(first).value.texelSize)))
  {
    var first := files[names[0]].header;
    var ts := TexelLayout(first).value.texelSize;
    LaterLevelsInOrder(files, heapLimit, names, first, ts, |names|);
    LaterLevelsSucceedIff(files, heapLimit, names, first, ts, |names|);
    var t := LoadLevelsSpec(files, heapLimit, names, wrap, minFilter, magFilter, id).value;
    forall i | 1 <= i < |names|
      ensures LevelImage(files, heapLimit, names[i], first, ts).Some?
    {
    }
  }

  /** A later level whose pixel format differs from level 0's makes the whole load fail. */
  lemma InconsistentLevelGivesNull(files: map<string, TgaFile>, heapLimit: nat, names: seq<string>,
                                   wrap: nat, minFilter: nat, magFilter: nat, id: nat, i: nat)
    requires 1 <= i < |names| && names[0] in files && names[i] in files
    requires files[names[i]].header.imageType != ImageTrueColor ||
             files[names[i]].header.depth != files[names[0]].header.depth ||
             files[names[i]].header.alphaDepth != files[names[0]].header.alphaDepth
    ensures LoadLevelsSpec(files, heapLimit, names, wrap, minFilter, magFilter, id).None?
  {
    LoadLevelsSucceedIff(files, heapLimit, names, wrap, minFilter, magFilter, id);
  }

  method LoadMipMappedLevels(files: map<string, TgaFile>, heapLimit: nat, names: seq<string>,
                             wrap: nat := GL_REPEAT, minFilter: nat := GL_LINEAR_MIPMAP_LINEAR,
                             magFilter: nat := GL_LINEAR, id: nat := 0) returns (t: MipMappedTexture?)
    requires |names| > 0
    ensures t == null <==> LoadLevelsSpec(files, heapLimit, names, wrap, minFilter, magFilter, id).None?
    ensures t != null ==> fresh(t) && t.Value() == LoadLevelsSpec(files, heapLimit, names, wrap, minFilter, magFilter, id).value
  {
    if names[0] !in files {
      return null;
    }
    var file := files[names[0]];
    var layout := TexelLayout(file.header);
    if layout.None? {
      return null;
    }
    var texelSize := layout.value.texelSize;
    var texture := new MipMappedTexture(file.header.width, file.header.height, layout.value.format,
                                        wrap, minFilter, magFilter, id);
    var image := ReadPixels(names[0], file, texelSize, heapLimit);
    if image.None? {
      return null;
    }
    texture.AddMipMap(0, image.value);
    var i := 1;
    while i < |names|
      invariant 1 <= i <= |names|
      invariant LaterLevels(files, heapLimit, names, file.header, texelSize, i).Some?
      invariant texture.Value() == MipTexture(file.header.width, file.header.height, layout.value.format,
                                              wrap, minFilter, magFilter, id,
                                              [MipLevel(0, image.value)] +
                                              LaterLevels(files, heapLimit, names, file.header, texelSize, i).value,
                                              None)
    {
      var level := LevelImage(files, heapLimit, names[i], file.header, texelSize);
      if level.None? {
        LaterLevelsSucceedIff(files, heapLimit, names, file.header, texelSize, |names|);
        return null;
      }
      texture.AddMipMap(i, level.value);
      i := i + 1;
    }
    t := texture;
  }

}
