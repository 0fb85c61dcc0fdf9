/** Saving a recording to the gallery (`saveVideoToGallery`). The media
    library is an abstract store: the assets it holds and its albums, each a
    name with a sequence of assets. Its answers are inputs: whether the
    permission is already granted, whether a request grants it, and what
    asset creation yields. The first alert the flow attempts is reported as
    an abstract outcome. */
module Gallery {

  /** The album the app files its recordings under. */
  const AlbumName: string := "SOSApp"

  /** Detail of the error raised when asset creation yields nothing. */
  const NoAssetError: string := "Failed to create asset"

  /** Prefix of the alert text for a failed save. */
  const SaveErrorPrefix: string := "Failed to save video to gallery: "

  /** A media asset, identified by the library. */
  datatype Asset = Asset(id: string)

  datatype Store = Store(assets: seq<Asset>, albums: map<string, seq<Asset>>)

  /** What asset creation gives back: an asset, nothing usable, or an error
      with its message. */
  datatype AssetReply = Created(asset: Asset) | Empty | Rejected(message: string)

  /** The calls the flow makes on the media library. */
  datatype Call =
    | GetPermissions
    | RequestPermissions
    | CreateAsset(uri: string)
    | GetAlbum(name: string)
    | AddToAlbum(asset: Asset, album: string)
    | CreateAlbum(name: string, initial: Asset)

  /** The first alert the flow attempts: the denial, the success, or the
      error alert of the catch. */
  datatype Report = PermissionDenied | Saved | SaveFailed(text: string)

  datatype SaveRun = SaveRun(store: Store, calls: seq<Call>, report: Report)

  /** The position of each kind of call in the flow. */
  function Stage(c: Call): nat
  {
    match c
    case GetPermissions => 0
    case RequestPermissions => 1
    case CreateAsset(_) => 2
    case GetAlbum(_) => 3
    case AddToAlbum(_, _) => 4
    case CreateAlbum(_, _) => 4
  }

  /** True when the library's permission ends up granted, asking only if it
      was not already. */
  predicate Permitted(granted: bool, grantedOnRequest: bool)
  {
    granted || grantedOnRequest
  }

  /** The save flow: permission check, a request only if needed, then asset
      creation, then the album: added to when it exists, created with the
      asset otherwise. */
  function SaveVideoToGallery(store: Store, uri: string, granted: bool, grantedOnRequest: bool, reply: AssetReply)
    : (r: SaveRun)
    ensures !Permitted(granted, grantedOnRequest) ==> r.store == store && r.report == PermissionDenied
    ensures r.report == Saved <==> Permitted(granted, grantedOnRequest) && reply.Created?
    ensures !reply.Created? ==> r.store == store
    ensures r.report == Saved ==>
              && r.store.assets == store.assets + [reply.asset]
              && r.store.albums.Keys == store.albums.Keys + {AlbumName}
              && multiset(r.store.albums[AlbumName])
                 == (if AlbumName in store.albums then multiset(store.albums[AlbumName]) else multiset{}) + multiset{reply.asset}
              && forall n :: n in store.albums && n != AlbumName ==> r.store.albums[n] == store.albums[n]
  {
    var checked := if granted then [GetPermissions] else [GetPermissions, RequestPermissions];
    if !Permitted(granted, grantedOnRequest) then
      SaveRun(store, checked, PermissionDenied)
    else
      var created := checked + [CreateAsset(uri)];
      match reply
      case Empty => SaveRun(store, created, SaveFailed(SaveErrorPrefix + NoAssetError))
      case Rejected(m) => SaveRun(store, created, SaveFailed(SaveErrorPrefix + m))
      case Created(a) =>
        var assets := store.assets + [a];
        if AlbumName in store.albums then
          SaveRun(Store(assets, store.albums[AlbumName := store.albums[AlbumName] + [a]]),
                  created + [GetAlbum(AlbumName), AddToAlbum(a, AlbumName)], Saved)
        else
          SaveRun(Store(assets, store.albums[AlbumName := [a]]),
                  created + [GetAlbum(AlbumName), CreateAlbum(AlbumName, a)], Saved)
  }

  /** The calls follow the flow, each kind at most once: the permission
      check first, a request only when the permission was not granted, asset
      creation only when the permission ends up granted, and album calls only
      on the way to a successful save. */
  lemma SaveCallsFollowFlow(store: Store, uri: string, granted: bool, grantedOnRequest: bool, reply: AssetReply)
    ensures var r := SaveVideoToGallery(store, uri, granted, grantedOnRequest, reply);
            && (forall i, j :: 0 <= i < j < |r.calls| ==> Stage(r.calls[i]) < Stage(r.calls[j]))
            && |r.calls| > 0 && r.calls[0] == GetPermissions
            && (RequestPermissions in r.calls <==> !granted)
            && (CreateAsset(uri) in r.calls <==> Permitted(granted, grantedOnRequest))
            && (!Permitted(granted, grantedOnRequest) ==> forall c :: c in r.calls ==> Stage(c) <= 1)
            && (forall c :: c in r.calls && Stage(c) >= 3 ==> r.report == Saved)
  {
  }

  /** The two album branches exclude each other: the recording is added to
      an existing "SOSApp" album exactly when one exists, and the album is
      created exactly when none does. */
  lemma AlbumBranchesExclusive(store: Store, uri: string, granted: bool, grantedOnRequest: bool, a: Asset)
    requires Permitted(granted, grantedOnRequest)
    ensures var r := SaveVideoToGallery(store, uri, granted, grantedOnRequest, Created(a));
            && (AddToAlbum(a, AlbumName) in r.calls <==> AlbumName in store.albums)
            && (CreateAlbum(AlbumName, a) in r.calls <==> AlbumName !in store.albums)
            && (forall i :: 0 <= i < |r.calls| && Stage(r.calls[i]) == 4 ==> i == |r.calls| - 1)
  {
  }

  /** Without a usable asset the flow stops before any album call. */
  lemma NoAssetNoAlbumCalls(store: Store, uri: string, granted: bool, grantedOnRequest: bool, reply: AssetReply)
    requires !reply.Created?
    ensures var r := SaveVideoToGallery(store, uri, granted, grantedOnRequest, reply);
            && (forall c :: c in r.calls ==> Stage(c) <= 2)
            && r.store == store
            && (Permitted(granted, grantedOnRequest) ==> r.report.SaveFailed?)
  {
  }

  /** Two recordings saved one after the other, starting with no "SOSApp"
      album, end up together in a single "SOSApp" album, in the order they
      were saved; the second save adds rather than creates. */
  lemma TwoSavesShareOneAlbum(store: Store, u1: string, u2: string, a1: Asset, a2: Asset)
    requires AlbumName !in store.albums
    ensures var first := SaveVideoToGallery(store, u1, true, true, Created(a1));
            var second := SaveVideoToGallery(first.store, u2, true, true, Created(a2));
            && second.store.albums[AlbumName] == [a1, a2]
            && second.store.albums.Keys == store.albums.Keys + {AlbumName}
            && CreateAlbum(AlbumName, a2) !in second.calls
            && AddToAlbum(a2, AlbumName) in second.calls
  {
  }
}
