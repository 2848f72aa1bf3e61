/**
 * The cloud Lambda on the session-state table's change stream: for every
 * inserted or modified row whose `suspected_windows` reaches the configured
 * threshold it publishes one session alert to the notification topic.
 */
module DynamoAlerts {
  import opened Base

  /** A typed attribute of a stream image: `{"S": text}` or `{"N": decimal text}`. */
  datatype Attr = S(s: string) | N(n: string)
  type Image = map<string, Attr>

  /** One change record: its `eventName` and `dynamodb.NewImage`, which may be absent. */
  datatype StreamRecord = StreamRecord(eventName: string, newImage: Option<Image>)

  const AlertType := "SESSION_THRESHOLD_EXCEEDED"
  const Subject := "\U{26A0}\U{FE0F} Alerta EEG: sesi\U{F3}n sospechosa"

  /** The message body: the row's key and both counters. */
  datatype Alert = Alert(
    alertType: string, patientId: string, sessionId: string,
    suspectedWindows: int, windowsTotal: int)

  /** One `sns.publish` call. */
  datatype Publish = Publish(topicArn: string, subject: string, message: Alert)

  /** `int(image[name]["N"])`. */
  function NumberAttr(image: Image, name: string): (r: Result<int>)
    ensures name in image && image[name].N? ==> r == ParseInt(image[name].n)
    ensures r.Ok? ==> name in image && image[name].N?
  {
    if name !in image then Err(KeyError(name))
    else match image[name]
      case N(text) => ParseInt(text)
      case S(_) => Err(KeyError("N"))
  }

  /** `image[name]["S"]`. */
  function StringAttr(image: Image, name: string): (r: Result<string>)
    ensures r.Ok? <==> name in image && image[name].S?
    ensures r.Ok? ==> r.value == image[name].s
  {
    if name !in image then Err(KeyError(name))
    else match image[name]
      case S(text) => Ok(text)
      case N(_) => Err(KeyError("S"))
  }

  /** The body of the loop for one record: skip it, alert on it, or raise. */
  function RecordAlert(rec: StreamRecord, threshold: int): Result<Option<Alert>> {
    if rec.eventName != "INSERT" && rec.eventName != "MODIFY" then Ok(None)
    else if rec.newImage.None? || rec.newImage.value == map[] then Ok(None)
    else
      var image := rec.newImage.value;
      var suspected :- NumberAttr(image, "suspected_windows");
      var total :- NumberAttr(image, "windows_total");
      if suspected >= threshold then
        var patientId :- StringAttr(image, "pk");
        var sessionId :- StringAttr(image, "sk");
        Ok(Some(Alert(AlertType, patientId, sessionId, suspected, total)))
      else Ok(None)
  }

  /** An image that `RecordAlert` can read: numeric counters, and string keys. */
  predicate Readable(image: Image) {
    && "suspected_windows" in image && image["suspected_windows"].N?
    && ParseInt(image["suspected_windows"].n).Ok?
    && "windows_total" in image && image["windows_total"].N?
    && ParseInt(image["windows_total"].n).Ok?
    && "pk" in image && image["pk"].S?
    && "sk" in image && image["sk"].S?
  }

  /**
   * The filter: a record other than INSERT or MODIFY, or whose new image is
   * absent or empty, is skipped; a readable image alerts exactly when its
   * suspected count reaches the threshold, and the alert copies the key and
   * both counters unchanged.
   */
  lemma AlertFilter(rec: StreamRecord, threshold: int)
    ensures rec.eventName != "INSERT" && rec.eventName != "MODIFY" ==> RecordAlert(rec, threshold) == Ok(None)
    ensures rec.newImage.None? ==> RecordAlert(rec, threshold) == Ok(None)
    ensures rec.newImage.Some? && rec.newImage.value == map[] ==> RecordAlert(rec, threshold) == Ok(None)
    ensures (rec.eventName == "INSERT" || rec.eventName == "MODIFY") && rec.newImage.Some? && Readable(rec.newImage.value) ==>
      var image := rec.newImage.value;
      var suspected := ParseInt(image["suspected_windows"].n).value;
      var total := ParseInt(image["windows_total"].n).value;
      RecordAlert(rec, threshold)
        == Ok(if suspected >= threshold
              then Some(Alert(AlertType, image["pk"].s, image["sk"].s, suspected, total))
              else None)
  {
  }

  /** What the handler has published so far, and the exception that stopped it, if any. */
  datatype Scan = Scan(published: seq<Publish>, failure: Option<Error>)

  /** The effect of the handler's loop over `records`, in order. */
  function ScanRecords(records: seq<StreamRecord>, topicArn: string, threshold: int): Scan {
    if records == [] then Scan([], None)
    else
      var prev := ScanRecords(records[..|records| - 1], topicArn, threshold);
      if prev.failure.Some? then prev
      else match RecordAlert(records[|records| - 1], threshold)
        case Err(e) => prev.(failure := Some(e))
        case Ok(None) => prev
        case Ok(Some(alert)) => prev.(published := prev.published + [Publish(topicArn, Subject, alert)])
  }

  lemma {:induction false} FailureStops(records: seq<StreamRecord>, topicArn: string, threshold: int, i: nat, j: nat)
    requires i <= j <= |records|
    requires ScanRecords(records[..i], topicArn, threshold).failure.Some?
    ensures ScanRecords(records[..j], topicArn, threshold) == ScanRecords(records[..i], topicArn, threshold)
    decreases j
  {
    if j > i {
      FailureStops(records, topicArn, threshold, i, j - 1);
      assert records[..j][..j - 1] == records[..j - 1];
    }
  }

  /** The body of the handler's loop for one record: its `continue` guards, the reads, and the threshold test. */
  method ProcessRecord(rec: StreamRecord, threshold: int) returns (r: Result<Option<Alert>>)
    ensures r == RecordAlert(rec, threshold)
  {
    if rec.eventName != "INSERT" && rec.eventName != "MODIFY" {
      return Ok(None);
    }
    if rec.newImage.None? || rec.newImage.value == map[] {
      return Ok(None);
    }
    var image := rec.newImage.value;
    var suspected := NumberAttr(image, "suspected_windows");
    if suspected.Err? {
      return Err(suspected.error);
    }
    var total := NumberAttr(image, "windows_total");
    if total.Err? {
      return Err(total.error);
    }
    if suspected.value < threshold {
      return Ok(None);
    }
    var patientId := StringAttr(image, "pk");
    if patientId.Err? {
      return Err(patientId.error);
    }
    var sessionId := StringAttr(image, "sk");
    if sessionId.Err? {
      return Err(sessionId.error);
    }
    return Ok(Some(Alert(AlertType, patientId.value, sessionId.value, suspected.value, total.value)));
  }

  /**
   * `handler`: `event["Records"]` (a KeyError when absent), then one pass
   * over the records, publishing in record order; an exception stops the
   * pass; the answer is status 200.
   */
  method Handler(records: Option<seq<StreamRecord>>, topicArn: string, threshold: int)
    returns (published: seq<Publish>, r: Result<int>)
    ensures records.None? ==> published == [] && r == Err(KeyError("Records"))
    ensures records.Some? ==>
      var s := ScanRecords(records.value, topicArn, threshold);
      && published == s.published
      && r == (if s.failure.Some? then Err(s.failure.value) else Ok(200))
  {
    if records.None? {
      return [], Err(KeyError("Records"));
    }
    var batch := records.value;
    published := [];
    for i := 0 to |batch|
      invariant ScanRecords(batch[..i], topicArn, threshold) == Scan(published, None)
    {
      assert batch[..i + 1][..i] == batch[..i];
      var outcome := ProcessRecord(batch[i], threshold);
      if outcome.Err? {
        FailureStops(batch, topicArn, threshold, i + 1, |batch|);
        assert batch[..|batch|] == batch;
        return published, Err(outcome.error);
      }
      if outcome.value.Some? {
        published := published + [Publish(topicArn, Subject, outcome.value.value)];
      }
    }
    assert batch[..|batch|] == batch;
    return published, Ok(200);
  }

  /**
   * At most one publish per record, each to the configured topic with the
   * fixed subject, each for a row at or over the threshold.
   */
  lemma {:induction false} ScanPublishesAtMostOncePerRecord(records: seq<StreamRecord>, topicArn: string, threshold: int)
    ensures var s := ScanRecords(records, topicArn, threshold);
      && |s.published| <= |records|
      && forall p :: p in s.published ==>
           && p.topicArn == topicArn && p.subject == Subject
           && p.message.alertType == AlertType
           && p.message.suspectedWindows >= threshold
  {
    if records != [] {
      ScanPublishesAtMostOncePerRecord(records[..|records| - 1], topicArn, threshold);
    }
  }

  /** A batch of records that are all skipped publishes nothing and answers 200. */
  lemma {:induction false} SkippedRecordsPublishNothing(records: seq<StreamRecord>, topicArn: string, threshold: int)
    requires forall i :: 0 <= i < |records| ==>
      (records[i].eventName != "INSERT" && records[i].eventName != "MODIFY") || records[i].newImage.None?
    ensures ScanRecords(records, topicArn, threshold) == Scan([], None)
  {
    if records != [] {
      SkippedRecordsPublishNothing(records[..|records| - 1], topicArn, threshold);
    }
  }

  /** A MODIFY with 5 suspected of 9 windows against a threshold of 3 publishes one alert with those counters. */
  lemma ThresholdReachedExample(topicArn: string)
    ensures var image := map["pk" := S("p1"), "sk" := S("s1"), "suspected_windows" := N("5"), "windows_total" := N("9")];
      ScanRecords([StreamRecord("MODIFY", Some(image))], topicArn, 3)
        == Scan([Publish(topicArn, Subject, Alert(AlertType, "p1", "s1", 5, 9))], None)
  {
    var image := map["pk" := S("p1"), "sk" := S("s1"), "suspected_windows" := N("5"), "windows_total" := N("9")];
    IntToStringRoundTrip(5);
    IntToStringRoundTrip(9);
    assert ParseInt("5") == Ok(5) by { assert IntToString(5) == "5"; }
    assert ParseInt("9") == Ok(9) by { assert IntToString(9) == "9"; }
    var recs := [StreamRecord("MODIFY", Some(image))];
    assert recs[..0] == [];
  }
}
