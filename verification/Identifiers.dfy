/** Upload tracking ids: what the server hands out and how the handlers take it apart. */
module Identifiers {
  import opened Text

  function CreateUploadTrackingIdentifier(uploadId: string, layerIdentifier: string): string {
    uploadId + ":" + layerIdentifier
  }

  /** The layer part is element 1 of the split id: reading it needs one colon at least. */
  predicate IsTrackingId(trackingId: string) {
    |Split(trackingId, ':')| >= 2
  }

  function GetUploadId(trackingId: string): string {
    Split(trackingId, ':')[0]
  }

  function GetLayerIdentifierFromTrackingId(trackingId: string): string
    requires IsTrackingId(trackingId)
  {
    Split(trackingId, ':')[1]
  }

  function GetLayerIdentifier(identifier: string): string {
    "layers/" + identifier
  }

  /** Both inverse parsers give their part back exactly when neither part has a colon. */
  lemma TrackingIdRoundTrip(uploadId: string, layerId: string)
    ensures var id := CreateUploadTrackingIdentifier(uploadId, layerId);
      && IsTrackingId(id)
      && (GetUploadId(id) == uploadId && GetLayerIdentifierFromTrackingId(id) == layerId
          <==> ':' !in uploadId && ':' !in layerId)
  {
    var id := CreateUploadTrackingIdentifier(uploadId, layerId);
    SplitJoins(id, ':');
    CountAround(uploadId, layerId);
    if ':' !in uploadId && ':' !in layerId {
      SplitFirst(uploadId, ':', layerId);
      SplitNoSep(layerId, ':');
      assert id == uploadId + [':'] + layerId;
    }
  }

  lemma {:induction false} CountAround(a: string, b: string)
    ensures Count(a + ":" + b, ':') >= 1
  {
    var s := a + ":" + b;
    if a != "" {
      CountAround(a[1..], b);
      assert s[1..] == a[1..] + ":" + b;
    }
  }
}
