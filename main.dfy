/** The waste service's HTTP handlers: the classifier and the annotating
    detection loop, and the stage-then-confirm workflow over three folders
    (`uploads`, `temp`, `output`) and the `pickup_spots` ledger. */
module WasteApi {
  import opened Common
  import Detect
  import Ledger

  const RecyclableLabels: seq<string> :=
    ["cardboard_box", "can", "plastic_bottle_cap", "plastic_bottle", "reuseable_paper"]

  const NonRecyclableLabels: seq<string> :=
    ["plastic_bag", "scrap_paper", "stick", "plastic_cup", "snack_bag", "plastic_box",
     "straw", "plastic_cup_lid", "scrap_plastic", "cardboard_bowl", "plastic_cultery"]

  const HazardousLabels: seq<string> :=
    ["battery", "chemical_spray_can", "chemical_plastic_bottle", "chemical_plastic_gallon",
     "light_bulb", "paint_bucket"]

  lemma LabelListsDisjoint(name: string)
    ensures !(name in RecyclableLabels && name in NonRecyclableLabels)
    ensures !(name in RecyclableLabels && name in HazardousLabels)
    ensures !(name in NonRecyclableLabels && name in HazardousLabels)
  {
  }

  /** Total classifier: the category of the one list holding the label, else Unknown. */
  function Classify(name: string): (c: Category)
    ensures c == Recyclable <==> name in RecyclableLabels
    ensures c == NonRecyclable <==> name in NonRecyclableLabels
    ensures c == Hazardous <==> name in HazardousLabels
    ensures c == Unknown <==>
      name !in RecyclableLabels && name !in NonRecyclableLabels && name !in HazardousLabels
  {
    LabelListsDisjoint(name);
    if name in RecyclableLabels then Recyclable
    else if name in NonRecyclableLabels then NonRecyclable
    else if name in HazardousLabels then Hazardous
    else Unknown
  }

  /** The two copies of the classifier agree on every label. */
  lemma ClassifyAgreesWithDetect(name: string)
    ensures Classify(name) == Detect.Classify(name)
  {
  }

  /** The detection records for `boxes`, one per box in box order: the class
      name as label, its category, the confidence rounded to two places, and
      the corners. */
  function Classified(ext: Externals, boxes: seq<RawBox>): (dets: seq<Detection>)
    ensures |dets| == |boxes|
    ensures forall i :: 0 <= i < |boxes| ==>
      && dets[i].name == ext.names(boxes[i].classId)
      && dets[i].category == Classify(dets[i].name)
      && dets[i].confidence == ext.round2(boxes[i].conf)
      && dets[i].bbox == [boxes[i].x1, boxes[i].y1, boxes[i].x2, boxes[i].y2]
    decreases |boxes|
  {
    if boxes == [] then []
    else
      var box := boxes[|boxes| - 1];
      var name := ext.names(box.classId);
      Classified(ext, boxes[..|boxes| - 1])
        + [Detection(name, Classify(name), ext.round2(box.conf), [box.x1, box.y1, box.x2, box.y2])]
  }

  /** One more box adds its record at the end. */
  lemma ClassifiedStep(ext: Externals, boxes: seq<RawBox>, i: nat)
    requires i < |boxes|
    ensures Classified(ext, boxes[..i + 1]) == Classified(ext, boxes[..i]) + [
      Detection(ext.names(boxes[i].classId), Classify(ext.names(boxes[i].classId)), ext.round2(boxes[i].conf),
                [boxes[i].x1, boxes[i].y1, boxes[i].x2, boxes[i].y2])]
  {
    assert boxes[..i + 1][..i] == boxes[..i];
  }

  /** One more record draws once more, on top of the earlier drawings. */
  lemma DrawAllStep(draw: (Pixels, seq<int>, string) -> Pixels, img: Pixels, dets: seq<Detection>, d: Detection)
    ensures DrawAll(draw, img, dets + [d]) == draw(DrawAll(draw, img, dets), d.bbox, Caption(d))
  {
    assert (dets + [d])[..|dets|] == dets;
  }

  /** The annotated image and the detection records of one image. */
  datatype Annotated = Annotated(image: Pixels, detections: seq<Detection>)

  /** Detection with annotation: for each model box, in order, append its
      record and draw it onto the decoded image. Fails exactly when the image
      does not decode. */
  method DetectAndClassifyBytes(ext: Externals, image: Bytes) returns (r: Option<Annotated>)
    ensures r.None? <==> ModelBoxes(ext, image).None?
    ensures r.Some? ==>
      && r.value.detections == Classified(ext, ModelBoxes(ext, image).value)
      && r.value.image == DrawAll(ext.draw, ext.decode(image).value, r.value.detections)
  {
    var decoded := ext.decode(image);
    if decoded.None? {
      return None;
    }
    var imgBgr := decoded.value;
    var boxes := ext.predict(ext.toRgb(imgBgr));
    var detections: seq<Detection> := [];
    for i := 0 to |boxes|
      invariant detections == Classified(ext, boxes[..i])
      invariant imgBgr == DrawAll(ext.draw, decoded.value, detections)
    {
      var box := boxes[i];
      var name := ext.names(box.classId);
      var category := Classify(name);
      var det := Detection(name, category, ext.round2(box.conf), [box.x1, box.y1, box.x2, box.y2]);
      ClassifiedStep(ext, boxes, i);
      DrawAllStep(ext.draw, decoded.value, detections, det);
      detections := detections + [det];
      imgBgr := ext.draw(imgBgr, det.bbox, Caption(det));
    }
    assert boxes[..|boxes|] == boxes;
    r := Some(Annotated(imgBgr, detections));
  }

  /** The number of detections in an image, the annotated image being
      discarded: one per model box. Fails exactly when the image does not decode. */
  method CountDetections(ext: Externals, image: Bytes) returns (count: Option<nat>)
    ensures count.None? <==> ModelBoxes(ext, image).None?
    ensures count.Some? ==> count.value == |ModelBoxes(ext, image).value|
  {
    var annotated := DetectAndClassifyBytes(ext, image);
    if annotated.None? {
      return None;
    }
    count := Some(|annotated.value.detections|);
  }

  /** A uuid4 in `.hex` form: 32 lower-case hexadecimal digits. */
  predicate IsUuidHex(hex: string) {
    |hex| == 32 && forall i :: 0 <= i < |hex| ==> hex[i] in "0123456789abcdef"
  }

  /** The stored file name `{hex}_{original name}`: the token, one
      underscore, then the original name unchanged. */
  function StagingName(hex: string, original: string): (name: string)
    ensures |name| == |hex| + 1 + |original|
    ensures name[..|hex|] == hex && name[|hex|] == '_' && name[|hex| + 1..] == original
  {
    hex + "_" + original
  }

  /** Two uploads get the same stored name only if both the token and the
      original name are equal: distinct tokens never collide. */
  lemma StagingNameInjective(hex1: string, name1: string, hex2: string, name2: string)
    requires IsUuidHex(hex1) && IsUuidHex(hex2)
    ensures StagingName(hex1, name1) == StagingName(hex2, name2) <==> hex1 == hex2 && name1 == name2
  {
    if StagingName(hex1, name1) == StagingName(hex2, name2) {
      var s := StagingName(hex1, name1);
      assert s[..32] == hex1;
      assert StagingName(hex2, name2)[..32] == hex2;
      assert s[33..] == name1;
      assert StagingName(hex2, name2)[33..] == name2;
    }
  }

  /** Why a request failed. */
  datatype Cause =
    | UndecodableImage    // cv2.imdecode gave nothing to convert
    | UnwritablePreview   // cv2.imwrite found no encoder for the file name
    | TempImageMissing    // the staged preview is not in `temp`
    | BadPickupTime       // `time` is not an ISO date
    | DatabaseUnavailable // the connection or the insert failed

  /** The HTTP outcome of a failed request. */
  datatype ApiError = NotFound | Internal(cause: Cause) {
    function Status(): int {
      if NotFound? then 404 else 500
    }
  }

  /** The answer of a successful analysis. */
  datatype Analysis = Analysis(tempFilename: string, detections: seq<Detection>, previewImageUrl: string)

  /** The answer of a successful confirmation. */
  datatype Confirmation = Confirmation(pickupId: nat, points: nat)

  /** The answer of a points query. Each pickup is a whole table row; the
      service's JSON item carries every column but `user_id`, which is the
      queried user for every listed row. */
  datatype UserPointsReply = UserPointsReply(userId: int, points: nat, pickups: seq<Ledger.PickupSpot>)

  /** Which handler inserted a ledger row. */
  datatype Origin = FromConfirm | FromUpload

  /** The creation time of an upload: the parsed `time` field when one is given
      and non-empty, else the current time; None when parsing raises. */
  function PickupTime(ext: Externals, time: Option<string>, now: Timestamp): (t: Option<Timestamp>)
    ensures time.None? || time.value == "" ==> t == Some(now)
    ensures t.None? <==> time.Some? && time.value != "" && ext.parseIsoTime(time.value).None?
    ensures time.Some? && time.value != "" ==> t == ext.parseIsoTime(time.value)
  {
    if time.Some? && time.value != "" then ext.parseIsoTime(time.value) else Some(now)
  }

  /** The consistency the handlers keep between the three folders and the
      ledger, stated on their values. */
  ghost predicate Consistent(uploads: map<string, Bytes>, temp: map<string, Bytes>, output: map<string, Bytes>,
                             rows: seq<Ledger.PickupSpot>, nextId: nat, origins: seq<Origin>)
  {
    // every staged or promoted name still has its raw upload
    && temp.Keys <= uploads.Keys
    && output.Keys <= uploads.Keys
    // a promoted name is never staged again
    && temp.Keys !! output.Keys
    // ids are positive, below the sequence counter and increasing in table order
    && nextId > 0
    && |origins| == |rows|
    && (forall i :: 0 <= i < |rows| ==> 0 < rows[i].id < nextId)
    && (forall i, j :: 0 <= i < j < |rows| ==> rows[i].id < rows[j].id)
    && (forall i :: 0 <= i < |rows| ==> rows[i].photoUrl in uploads && !rows[i].isDisposed)
    // a confirmed row's file has already been moved to `output`
    && (forall i :: 0 <= i < |rows| && origins[i] == FromConfirm ==> rows[i].photoUrl in output)
    // an uploaded row carries no points and its file was never staged
    && (forall i :: 0 <= i < |rows| && origins[i] == FromUpload ==>
          rows[i].points == 0 && rows[i].photoUrl !in temp && rows[i].photoUrl !in output)
  }

  /** Storing a fresh raw upload keeps the state consistent. */
  lemma StagingKeepsConsistent(uploads: map<string, Bytes>, temp: map<string, Bytes>, output: map<string, Bytes>,
                               rows: seq<Ledger.PickupSpot>, nextId: nat, origins: seq<Origin>,
                               filename: string, raw: Bytes)
    requires Consistent(uploads, temp, output, rows, nextId, origins)
    requires filename !in uploads && filename !in temp && filename !in output
    ensures Consistent(uploads[filename := raw], temp, output, rows, nextId, origins)
  {
  }

  /** Staging the preview of a stored upload that is not yet staged, not
      promoted and named by no row keeps the state consistent. */
  lemma StagePreviewKeepsConsistent(uploads: map<string, Bytes>, temp: map<string, Bytes>, output: map<string, Bytes>,
                                    rows: seq<Ledger.PickupSpot>, nextId: nat, origins: seq<Origin>,
                                    filename: string, preview: Bytes)
    requires Consistent(uploads, temp, output, rows, nextId, origins)
    requires filename in uploads && filename !in temp && filename !in output
    requires forall i :: 0 <= i < |rows| ==> rows[i].photoUrl != filename
    ensures Consistent(uploads, temp[filename := preview], output, rows, nextId, origins)
  {
  }

  /** Moving a staged name from `temp` to `output` keeps the state consistent. */
  lemma PromoteKeepsConsistent(uploads: map<string, Bytes>, temp: map<string, Bytes>, output: map<string, Bytes>,
                               rows: seq<Ledger.PickupSpot>, nextId: nat, origins: seq<Origin>, filename: string)
    requires Consistent(uploads, temp, output, rows, nextId, origins)
    requires filename in temp
    ensures Consistent(uploads, temp - {filename}, output[filename := temp[filename]], rows, nextId, origins)
  {
  }

  /** Inserting a row with the next id keeps the state consistent, provided a
      confirmed row's file is already in `output` and an uploaded row carries
      no points and names an unstaged upload. */
  lemma InsertKeepsConsistent(uploads: map<string, Bytes>, temp: map<string, Bytes>, output: map<string, Bytes>,
                              rows: seq<Ledger.PickupSpot>, nextId: nat, origins: seq<Origin>,
                              row: Ledger.PickupSpot, origin: Origin)
    requires Consistent(uploads, temp, output, rows, nextId, origins)
    requires row.id == nextId > 0 && row.photoUrl in uploads && !row.isDisposed
    requires origin == FromConfirm ==> row.photoUrl in output
    requires origin == FromUpload ==> row.points == 0 && row.photoUrl !in temp && row.photoUrl !in output
    ensures Consistent(uploads, temp, output, rows + [row], nextId + 1, origins + [origin])
  {
  }

  /** The stateful service: the three folders, each a map from file name to
      bytes, and the `pickup_spots` table with its id sequence. */
  class Service {
    const ext: Externals
    var uploads: map<string, Bytes>
    var temp: map<string, Bytes>
    var output: map<string, Bytes>
    var rows: seq<Ledger.PickupSpot>
    var nextId: nat
    ghost var origins: seq<Origin>

    /** The consistency the handlers keep between the folders and the ledger. */
    ghost predicate Valid()
      reads this
    {
      Consistent(uploads, temp, output, rows, nextId, origins)
    }

    /** A name no folder holds yet (what uuid4 provides). */
    ghost predicate Fresh(filename: string)
      reads this
    {
      filename !in uploads && filename !in temp && filename !in output
    }

    constructor (ext: Externals)
      ensures Valid() && this.ext == ext
      ensures uploads == map[] && temp == map[] && output == map[]
      ensures rows == [] && nextId == 1
    {
      this.ext := ext;
      uploads, temp, output := map[], map[], map[];
      rows, nextId := [], 1;
      origins := [];
    }

    /** Write the raw upload under a name no folder holds yet. */
    method Store(filename: string, raw: Bytes)
      requires Valid() && Fresh(filename)
      modifies this
      ensures Valid() && filename !in temp && filename !in output
      ensures forall i :: 0 <= i < |rows| ==> rows[i].photoUrl != filename
      ensures uploads == old(uploads)[filename := raw]
      ensures temp == old(temp) && output == old(output) && rows == old(rows) && nextId == old(nextId)
    {
      StagingKeepsConsistent(uploads, temp, output, rows, nextId, origins, filename, raw);
      uploads := uploads[filename := raw];
    }

    /** Write the preview of a stored upload into `temp`. */
    method Stage(filename: string, preview: Bytes)
      requires Valid() && filename in uploads && filename !in temp && filename !in output
      requires forall i :: 0 <= i < |rows| ==> rows[i].photoUrl != filename
      modifies this
      ensures Valid()
      ensures temp == old(temp)[filename := preview]
      ensures uploads == old(uploads) && output == old(output) && rows == old(rows) && nextId == old(nextId)
    {
      StagePreviewKeepsConsistent(uploads, temp, output, rows, nextId, origins, filename, preview);
      temp := temp[filename := preview];
    }

    /** `INSERT INTO pickup_spots ... RETURNING id`: append `row` under the
        next id. The folders stay as they are, and only the row's own user's
        total changes, by the row's points. */
    method Insert(row: Ledger.PickupSpot, origin: Origin)
      requires Valid()
      requires row.id == nextId && row.photoUrl in uploads && !row.isDisposed
      requires origin == FromConfirm ==> row.photoUrl in output
      requires origin == FromUpload ==> row.points == 0 && row.photoUrl !in temp && row.photoUrl !in output
      modifies this
      ensures Valid()
      ensures uploads == old(uploads) && temp == old(temp) && output == old(output)
      ensures rows == old(rows) + [row] && nextId == old(nextId) + 1
      ensures forall u :: (Ledger.TotalFor(rows, u)
        == Ledger.TotalFor(old(rows), u) + (if u == row.userId then row.points else 0))
    {
      InsertKeepsConsistent(uploads, temp, output, rows, nextId, origins, row, origin);
      forall u ensures Ledger.TotalFor(rows + [row], u)
        == Ledger.TotalFor(rows, u) + (if u == row.userId then row.points else 0)
      {
        Ledger.TotalAfterInsert(rows, row, u);
      }
      rows := rows + [row];
      origins := origins + [origin];
      nextId := nextId + 1;
    }

    /** POST /analyze-image/: store the raw upload, detect, and stage the
        annotated preview in `temp` under the same name. */
    method AnalyzeImage(hex: string, originalName: string, image: Bytes) returns (r: Result<Analysis, ApiError>)
      requires Valid() && IsUuidHex(hex) && Fresh(StagingName(hex, originalName))
      modifies this
      ensures Valid()
      ensures uploads == old(uploads)[StagingName(hex, originalName) := image]
      ensures output == old(output) && rows == old(rows) && nextId == old(nextId)
      ensures ModelBoxes(ext, image).None? ==> r == Failure(Internal(UndecodableImage)) && temp == old(temp)
      ensures ModelBoxes(ext, image).Some? ==>
        var filename := StagingName(hex, originalName);
        var detections := Classified(ext, ModelBoxes(ext, image).value);
        match ext.encode(filename, DrawAll(ext.draw, ext.decode(image).value, detections))
        case None => r == Failure(Internal(UnwritablePreview)) && temp == old(temp)
        case Some(preview) =>
          && r == Success(Analysis(filename, detections, "/temp_image/" + filename))
          && temp == old(temp)[filename := preview]
    {
      var filename := StagingName(hex, originalName);
      Store(filename, image);
      var annotated := DetectAndClassifyBytes(ext, image);
      if annotated.None? {
        return Failure(Internal(UndecodableImage));
      }
      var preview := ext.encode(filename, annotated.value.image);
      if preview.None? {
        return Failure(Internal(UnwritablePreview));
      }
      Stage(filename, preview.value);
      r := Success(Analysis(filename, annotated.value.detections, "/temp_image/" + filename));
    }

    /** POST /confirm/: promote the staged preview to `output`, re-detect on
        the raw upload, and insert one ledger row worth one point per detection.
        Every failure, the missing preview included, is answered with 500. */
    method Confirm(tempFilename: string, userId: int, lat: real, lng: real, address: Option<string>,
                   now: Timestamp, dbUp: bool) returns (r: Result<Confirmation, ApiError>)
      requires Valid()
      modifies this
      ensures Valid()
      ensures old(tempFilename !in temp) ==>
        r == Failure(Internal(TempImageMissing)) && r.error.Status() == 500 && unchanged(this)
      ensures old(tempFilename in temp) ==>
        && temp == old(temp) - {tempFilename}
        && output == old(output)[tempFilename := old(temp)[tempFilename]]
        && uploads == old(uploads)
      ensures old(tempFilename in temp) ==>
        match ModelBoxes(ext, uploads[tempFilename])
        case None => r == Failure(Internal(UndecodableImage))
        case Some(boxes) =>
          if !dbUp then r == Failure(Internal(DatabaseUnavailable))
          else
            && r == Success(Confirmation(old(nextId), |boxes|))
            && rows == old(rows) + [Ledger.PickupSpot(old(nextId), userId, lat, lng, now, tempFilename,
                                                      address, false, |boxes|)]
            && nextId == old(nextId) + 1
      ensures r.Failure? ==> rows == old(rows) && nextId == old(nextId)
      ensures r.Success? ==> tempFilename !in temp && tempFilename in output
      ensures forall u :: (Ledger.TotalFor(rows, u)
        == Ledger.TotalFor(old(rows), u) + (if r.Success? && u == userId then r.value.points else 0))
    {
      if tempFilename !in temp {
        return Failure(Internal(TempImageMissing));
      }
      PromoteKeepsConsistent(uploads, temp, output, rows, nextId, origins, tempFilename);
      output := output[tempFilename := temp[tempFilename]];
      temp := temp - {tempFilename};
      // the raw upload is there: Valid() keeps temp's names inside uploads
      var count := CountDetections(ext, uploads[tempFilename]);
      if count.None? {
        return Failure(Internal(UndecodableImage));
      }
      var points := count.value;
      if !dbUp {
        return Failure(Internal(DatabaseUnavailable));
      }
      var row := Ledger.PickupSpot(nextId, userId, lat, lng, now, tempFilename, address, false, points);
      Insert(row, FromConfirm);
      r := Success(Confirmation(row.id, points));
    }

    /** GET /temp_image/{filename}: the staged preview, or 404. */
    function GetTempImage(filename: string): (r: Result<Bytes, ApiError>)
      reads this
      ensures r.Success? <==> filename in temp
      ensures r.Success? ==> r.value == temp[filename]
      ensures r.Failure? ==> r.error == NotFound && r.error.Status() == 404
    {
      if filename in temp then Success(temp[filename]) else Failure(NotFound)
    }

    /** POST /upload/: store the raw upload and insert a ledger row worth 0
        points, with no detection and no staging. */
    method UploadImage(hex: string, originalName: string, image: Bytes, userId: int, lat: real, lng: real,
                       address: Option<string>, time: Option<string>, now: Timestamp, dbUp: bool)
      returns (r: Result<nat, ApiError>)
      requires Valid() && IsUuidHex(hex) && Fresh(StagingName(hex, originalName))
      modifies this
      ensures Valid()
      ensures uploads == old(uploads)[StagingName(hex, originalName) := image]
      ensures temp == old(temp) && output == old(output)
      ensures match PickupTime(ext, time, now)
        case None => r == Failure(Internal(BadPickupTime))
        case Some(createdAt) =>
          if !dbUp then r == Failure(Internal(DatabaseUnavailable))
          else
            && r == Success(old(nextId))
            && rows == old(rows) + [Ledger.PickupSpot(old(nextId), userId, lat, lng, createdAt,
                                                      StagingName(hex, originalName), address, false, 0)]
            && nextId == old(nextId) + 1
      ensures r.Failure? ==> rows == old(rows) && nextId == old(nextId)
      ensures forall u :: Ledger.TotalFor(rows, u) == Ledger.TotalFor(old(rows), u)
    {
      var filename := StagingName(hex, originalName);
      Store(filename, image);
      var pickupTime := PickupTime(ext, time, now);
      if pickupTime.None? {
        return Failure(Internal(BadPickupTime));
      }
      if !dbUp {
        return Failure(Internal(DatabaseUnavailable));
      }
      var row := Ledger.PickupSpot(nextId, userId, lat, lng, pickupTime.value, filename, address, false, 0);
      Insert(row, FromUpload);
      r := Success(row.id);
    }

    /** GET /user_points/{user_id}: the sum of the user's points (0 when the
        user has no rows) and the user's rows, in no promised order. */
    method UserPoints(userId: int) returns (reply: UserPointsReply)
      ensures reply.userId == userId
      ensures reply.points == Ledger.TotalFor(rows, userId)
      ensures multiset(reply.pickups) == multiset(Ledger.RowsOf(rows, userId))
      ensures forall p :: multiset(reply.pickups)[p] == if p.userId == userId then multiset(rows)[p] else 0
      ensures reply.points == Ledger.SumPoints(reply.pickups)
    {
      var total: nat := 0;
      var pickups: seq<Ledger.PickupSpot> := [];
      for i := 0 to |rows|
        invariant pickups == Ledger.RowsOf(rows[..i], userId)
        invariant total == Ledger.SumPoints(pickups)
      {
        assert rows[..i + 1][..i] == rows[..i];
        if rows[i].userId == userId {
          total := total + rows[i].points;
          pickups := pickups + [rows[i]];
          assert pickups[..|pickups| - 1] == Ledger.RowsOf(rows[..i], userId);
        }
      }
      assert rows[..|rows|] == rows;
      forall p ensures multiset(pickups)[p] == if p.userId == userId then multiset(rows)[p] else 0 {
        Ledger.RowsOfCounts(rows, userId, p);
      }
      reply := UserPointsReply(userId, total, pickups);
    }

    /** GET /image/{filename}: the promoted annotated image, or 404. */
    function GetImage(filename: string): (r: Result<Bytes, ApiError>)
      reads this
      ensures r.Success? <==> filename in output
      ensures r.Success? ==> r.value == output[filename]
      ensures r.Failure? ==> r.error == NotFound && r.error.Status() == 404
    {
      if filename in output then Success(output[filename]) else Failure(NotFound)
    }

    /** A staging name is single-use: whatever happens to the first
        confirmation, a replay of the same name by anyone fails, and the
        ledger holds only what the first confirmation inserted. */
    method ConfirmTwice(tempFilename: string,
                        userId: int, lat: real, lng: real, address: Option<string>, now: Timestamp, dbUp: bool,
                        userId': int, lat': real, lng': real, address': Option<string>, now': Timestamp, dbUp': bool)
      returns (first: Result<Confirmation, ApiError>, second: Result<Confirmation, ApiError>)
      requires Valid()
      modifies this
      ensures Valid()
      ensures second == Failure(Internal(TempImageMissing))
      ensures first.Failure? ==> rows == old(rows)
      ensures first.Success? ==>
        rows == old(rows) + [Ledger.PickupSpot(old(nextId), userId, lat, lng, now, tempFilename,
                                               address, false, first.value.points)]
    {
      first := Confirm(tempFilename, userId, lat, lng, address, now, dbUp);
      ghost var afterFirst := rows;
      second := Confirm(tempFilename, userId', lat', lng', address', now', dbUp');
      assert rows == afterFirst;
    }
  }
}
