/**
 * The asset record of tests/common/utils.test.ts and the list the test expects
 * from flattening it. Each path is named once and used in both places.
 */
module UtilsTest {
  import opened Wrappers
  import opened Utils

  const StoreLocatorCss := "modules/store-locator/store-locator.ebfc048bd09614a1089f.min.css"
  const StoreLocatorJs := "modules/store-locator/store-locator.63ed7c2e196ec6bfd008.min.js"
  const SelfstockIconsTtf := "fonts/selfstock-icons.341767e04dc720bbde7b.ttf"
  const SelfstockIconsWoff2 := "fonts/selfstock-icons.98e0fa111393f2ee3c52.woff2"
  const SelfstockIconsEot := "fonts/selfstock-icons.c1e498425a4e30124e31.eot"
  const SelfstockIconsWoff := "fonts/selfstock-icons.cd1ec050d0e25abe6ea8.woff"
  const SelfstockIconsSvg := "icons/selfstock-icons.818862173a050d0c61dc.svg"
  const ProductGridCss := "modules/vendor-page/product-grid.3e077b0f7bff4779bbeb.min.css"
  const ProductGridJs := "modules/vendor-page/product-grid.26372fe8d111aca7e7b3.min.js"
  const Access2Svg := "icons/access-2.c7f49397f168af303f02.svg"
  const AccessSvg := "icons/access.d81518ef03a29fe127c1.svg"
  const ContainerSvg := "icons/container.66cf2fa6e451cb582e53.svg"
  const DriveAccessSvg := "icons/drive-access.0d79cbaf194883cf1029.svg"
  const IndoorStairsSvg := "icons/indoor-stairs.5934345ddf9a0cca81ed.svg"
  const IndoorSvg := "icons/indoor.e8a7959800d7bf19c763.svg"
  const OutdoorSvg := "icons/outdoor.cf8c8ca50d1fcf23f7ab.svg"
  const SingleProductCss := "modules/vendor-page/single-product.9798c087aad720690c82.min.css"
  const SingleProductJs := "modules/vendor-page/single-product.2957559d163175b6a972.min.js"
  const CheckoutControllerCss := "modules/checkout/checkout-controller.b048ab3f8a70d6886033.min.css"
  const CheckoutControllerJs := "modules/checkout/checkout-controller.510963526eb1c511748b.min.js"
  const SwiperChunk := "vendors-node_modules_swiper_swiper_esm_js.b6c989a9492c10f7b5fd.chunk.min.js"
  const AnimeChunk := "vendors-node_modules_animejs_lib_anime_es_js.599f607a5b4bdf3f048d.chunk.min.js"
  const RichMarkerChunk := "assets_TypeScript_Core_GoogleMapRichMarker_ts.ec115639f7f9254d5e14.chunk.min.js"

  const StoreLocator := Obj([
    Prop("css", Str(StoreLocatorCss)),
    Prop("js", Str(StoreLocatorJs)),
    Prop("ttf", Str(SelfstockIconsTtf)),
    Prop("woff2", Str(SelfstockIconsWoff2)),
    Prop("eot", Str(SelfstockIconsEot)),
    Prop("woff", Str(SelfstockIconsWoff)),
    Prop("svg", Str(SelfstockIconsSvg))])

  const ProductGrid := Obj([
    Prop("css", Str(ProductGridCss)),
    Prop("js", Str(ProductGridJs)),
    Prop("ttf", Str(SelfstockIconsTtf)),
    Prop("woff2", Str(SelfstockIconsWoff2)),
    Prop("eot", Str(SelfstockIconsEot)),
    Prop("woff", Str(SelfstockIconsWoff)),
    Prop("svg", Arr([
      Str(Access2Svg),
      Str(AccessSvg),
      Str(ContainerSvg),
      Str(DriveAccessSvg),
      Str(IndoorStairsSvg),
      Str(IndoorSvg),
      Str(OutdoorSvg),
      Str(SelfstockIconsSvg)]))])

  const SingleProduct := Obj([
    Prop("css", Str(SingleProductCss)),
    Prop("js", Str(SingleProductJs))])

  const CheckoutController := Obj([
    Prop("css", Str(CheckoutControllerCss)),
    Prop("js", Str(CheckoutControllerJs))])

  const Chunks := Obj([
    Prop("js", Arr([
      Str(SwiperChunk),
      Str(AnimeChunk),
      Str(RichMarkerChunk)]))])

  const Content := Obj([
    Prop("modules/store-locator/store-locator", StoreLocator),
    Prop("modules/vendor-page/product-grid", ProductGrid),
    Prop("modules/vendor-page/single-product", SingleProduct),
    Prop("modules/checkout/checkout-controller", CheckoutController),
    Prop("", Chunks)])

  /** The expected list, written as the runs that each entry contributes. */
  const StoreLocatorPaths: seq<Scalar> := [
    SStr(StoreLocatorCss),
    SStr(StoreLocatorJs),
    SStr(SelfstockIconsTtf),
    SStr(SelfstockIconsWoff2),
    SStr(SelfstockIconsEot),
    SStr(SelfstockIconsWoff),
    SStr(SelfstockIconsSvg)]

  const ProductGridPaths: seq<Scalar> := [
    SStr(ProductGridCss),
    SStr(ProductGridJs),
    SStr(SelfstockIconsTtf),
    SStr(SelfstockIconsWoff2),
    SStr(SelfstockIconsEot),
    SStr(SelfstockIconsWoff)]

  const ProductGridIconPaths: seq<Scalar> := [
    SStr(Access2Svg),
    SStr(AccessSvg),
    SStr(ContainerSvg),
    SStr(DriveAccessSvg),
    SStr(IndoorStairsSvg),
    SStr(IndoorSvg),
    SStr(OutdoorSvg),
    SStr(SelfstockIconsSvg)]

  const SingleProductPaths: seq<Scalar> := [
    SStr(SingleProductCss),
    SStr(SingleProductJs)]

  const CheckoutControllerPaths: seq<Scalar> := [
    SStr(CheckoutControllerCss),
    SStr(CheckoutControllerJs)]

  const ChunkPaths: seq<Scalar> := [
    SStr(SwiperChunk),
    SStr(AnimeChunk),
    SStr(RichMarkerChunk)]

  const Expected: seq<Scalar> :=
    StoreLocatorPaths + ((ProductGridPaths + ProductGridIconPaths) + (SingleProductPaths + (CheckoutControllerPaths + ChunkPaths)))

  function Strings(vs: seq<Value>): seq<Scalar>
    requires forall i :: 0 <= i < |vs| ==> vs[i].Str?
  {
    seq(|vs|, i requires 0 <= i < |vs| && vs[i].Str? => SStr(vs[i].s))
  }

  lemma {:induction false} StringItemsFlatten(vs: seq<Value>)
    requires forall i :: 0 <= i < |vs| ==> vs[i].Str?
    ensures FlattenAll(vs) == Success(Strings(vs))
  {
    if vs != [] {
      StringItemsFlatten(vs[1..]);
      assert Strings(vs) == [SStr(vs[0].s)] + Strings(vs[1..]);
    }
  }

  lemma OneItem(v: Value)
    ensures FlattenAll([v]) == Flatten(v)
  {
    assert [v][1..] == [];
    JoinEmpty(Flatten(v));
  }

  lemma StoreLocatorFlattens()
    ensures Flatten(StoreLocator) == Success(StoreLocatorPaths)
  {
    var vs := ValuesOf(StoreLocator.props);
    ObjectFlattensItsValues(StoreLocator.props);
    StringItemsFlatten(vs);
    assert Flatten(Arr(vs)) == FlattenAll(vs);
    assert Strings(vs) == StoreLocatorPaths;
  }

  lemma ProductGridIconsFlatten()
    ensures Flatten(ProductGrid.props[6].value) == Success(ProductGridIconPaths)
  {
    var icons := ProductGrid.props[6].value.items;
    StringItemsFlatten(icons);
    assert Strings(icons) == ProductGridIconPaths;
  }

  lemma ProductGridFlattens()
    ensures Flatten(ProductGrid) == Success(ProductGridPaths + ProductGridIconPaths)
  {
    var grid := ValuesOf(ProductGrid.props);
    ObjectFlattensItsValues(ProductGrid.props);
    assert grid == grid[..6] + [grid[6]];
    FlattenArrayConcat(grid[..6], [grid[6]]);
    StringItemsFlatten(grid[..6]);
    OneItem(grid[6]);
    assert Flatten(Arr(grid[..6])) == FlattenAll(grid[..6]);
    assert Flatten(Arr([grid[6]])) == FlattenAll([grid[6]]);
    assert Strings(grid[..6]) == ProductGridPaths;
    ProductGridIconsFlatten();
  }

  lemma SingleProductFlattens()
    ensures Flatten(SingleProduct) == Success(SingleProductPaths)
  {
    var vs := ValuesOf(SingleProduct.props);
    ObjectFlattensItsValues(SingleProduct.props);
    StringItemsFlatten(vs);
    assert Flatten(Arr(vs)) == FlattenAll(vs);
    assert Strings(vs) == SingleProductPaths;
  }

  lemma CheckoutControllerFlattens()
    ensures Flatten(CheckoutController) == Success(CheckoutControllerPaths)
  {
    var vs := ValuesOf(CheckoutController.props);
    ObjectFlattensItsValues(CheckoutController.props);
    StringItemsFlatten(vs);
    assert Flatten(Arr(vs)) == FlattenAll(vs);
    assert Strings(vs) == CheckoutControllerPaths;
  }

  lemma ChunksFlattens()
    ensures Flatten(Chunks) == Success(ChunkPaths)
  {
    var vs := ValuesOf(Chunks.props);
    ObjectFlattensItsValues(Chunks.props);
    assert vs == [vs[0]];
    OneItem(vs[0]);
    StringItemsFlatten(vs[0].items);
    assert Flatten(Arr(vs)) == FlattenAll(vs);
    assert Flatten(vs[0]) == FlattenAll(vs[0].items);
    assert Strings(vs[0].items) == ChunkPaths;
  }

  lemma {:induction false} FiveItems(a: Value, b: Value, c: Value, d: Value, e: Value)
    ensures FlattenAll([a, b, c, d, e]) ==
      Join(Flatten(a), Join(Flatten(b), Join(Flatten(c), Join(Flatten(d), Flatten(e)))))
  {
    assert [a, b, c, d, e][1..] == [b, c, d, e];
    assert [b, c, d, e][1..] == [c, d, e];
    assert [c, d, e][1..] == [d, e];
    assert [d, e][1..] == [e];
    OneItem(e);
    assert FlattenAll([d, e]) == Join(Flatten(d), FlattenAll([e]));
    assert FlattenAll([c, d, e]) == Join(Flatten(c), FlattenAll([d, e]));
    assert FlattenAll([b, c, d, e]) == Join(Flatten(b), FlattenAll([c, d, e]));
  }

  /** Five successful parts join into their concatenation. */
  lemma JoinFive(a: seq<Scalar>, b: seq<Scalar>, c: seq<Scalar>, d: seq<Scalar>, e: seq<Scalar>)
    ensures Join(Success(a), Join(Success(b), Join(Success(c), Join(Success(d), Success(e))))) ==
      Success(a + (b + (c + (d + e))))
  {
  }

  /** The record lists its paths entry by entry and key by key. */
  lemma AssetRecordFlattens()
    ensures Flatten(Content) == Success(Expected)
  {
    ObjectFlattensItsValues(Content.props);
    assert ValuesOf(Content.props) == [StoreLocator, ProductGrid, SingleProduct, CheckoutController, Chunks];
    FiveItems(StoreLocator, ProductGrid, SingleProduct, CheckoutController, Chunks);
    StoreLocatorFlattens();
    ProductGridFlattens();
    SingleProductFlattens();
    CheckoutControllerFlattens();
    ChunksFlattens();
    JoinFive(StoreLocatorPaths, ProductGridPaths + ProductGridIconPaths, SingleProductPaths, CheckoutControllerPaths, ChunkPaths);
  }

  /** Duplicates are kept: the font and icon files shared by two entries appear at both positions. */
  lemma SharedFilesAppearTwice()
    ensures |Expected| == 28 && Expected[2] == Expected[9] && Expected[6] == Expected[20]
  {
    assert Expected[2] == StoreLocatorPaths[2] && Expected[6] == StoreLocatorPaths[6];
    assert Expected[9] == ProductGridPaths[2] && Expected[20] == ProductGridIconPaths[7];
  }
}
