/** The bundled image files, looked up by their path inside the package. */
module Assets {
  import opened Wrappers
  import opened Widgets

  /** The package's bundled bitmaps, keyed by path such as "assets/background.bmp". */
  type Store = map<string, Bitmap>

  /** `resources.open_binary` followed by `Image.open`: fails when no file has that path. */
  function Load(store: Store, path: string): (r: Result<Bitmap>)
    ensures r.Ok? <==> path in store
    ensures r.Ok? ==> r.value == store[path]
    ensures r.Err? ==> r.error == ResourceMissing(path)
  {
    if path in store then Ok(store[path]) else Err(ResourceMissing(path))
  }

  /** A widget whose bw layer is the asset at `path` and whose red layer is the default. */
  function AssetWidget(store: Store, path: string, name: string, z: int): (r: Result<Widget>)
    ensures r.Ok? <==> path in store
    ensures r.Ok? ==> r.value == New(name, z, Some(store[path]), None)
    ensures r.Err? ==> r.error == ResourceMissing(path)
  {
    match Load(store, path)
    case Ok(b) => Ok(New(name, z, Some(b), None))
    case Err(e) => Err(e)
  }
}
