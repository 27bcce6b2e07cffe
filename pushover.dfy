/** `send_pushover_alert` of `log_boiler_data.py`: which push requests the
    alert produces, one per recipient key, and with which parameters. The
    HTTP transport is a parameter: `accepts(m)` says whether the request
    for message `m` goes through or raises. */
module Pushover {
  import opened Wrappers
  import opened Text
  import opened Pressure

  /** At most this many characters of the report are sent. */
  const MESSAGE_LIMIT: nat := 1024

  const LINK_URL: string := "https://konradmakosa.github.io/vaillant/"
  const LINK_TITLE: string := "Wykres diagnostyczny"

  /** The form fields of one request. */
  datatype Message = Message(
    token: string,
    user: string,
    title: string,
    message: string,
    priority: int,
    sound: string,
    url: string,
    urlTitle: string)

  /** `all([token, users])`: the app token is set and non-empty, and the
      user-key string is non-empty. */
  predicate Configured(token: Option<string>, users: string) {
    token.Some? && token.value != "" && users != ""
  }

  function Priority(status: Status): (p: int)
    ensures p == 1 <==> status == Critical
    ensures p == 0 <==> status != Critical
  {
    if status == Critical then 1 else 0
  }

  function Sound(status: Status): (s: string)
    ensures s == "siren" <==> status == Critical
    ensures s == "pushover" <==> status != Critical
  {
    if status == Critical then "siren" else "pushover"
  }

  function Title(status: Status): (t: string)
    ensures t == "Vaillant: KRYTYCZNE!" <==> status == Critical
    ensures t == "Vaillant: Niskie cisnienie" <==> status != Critical
  {
    "Vaillant: " + (if status == Critical then "KRYTYCZNE!" else "Niskie cisnienie")
  }

  /** `report[:1024]`. */
  function Truncated(report: string): (m: string)
    ensures |m| <= MESSAGE_LIMIT && m <= report
    ensures |report| <= MESSAGE_LIMIT ==> m == report
    ensures |report| > MESSAGE_LIMIT ==> |m| == MESSAGE_LIMIT
  {
    if |report| <= MESSAGE_LIMIT then report else report[..MESSAGE_LIMIT]
  }

  /** The recipient keys among comma-separated pieces: each piece stripped,
      empty ones skipped, in order. */
  function KeysOf(pieces: seq<string>): (keys: seq<string>)
    ensures |keys| <= |pieces|
    decreases |pieces|
  {
    if |pieces| == 0 then []
    else
      var key := Strip(pieces[|pieces| - 1]);
      KeysOf(pieces[..|pieces| - 1]) + (if key == "" then [] else [key])
  }

  /** Every key is non-empty and has nothing left to strip. */
  lemma {:induction false} KeysAreStripped(pieces: seq<string>)
    ensures forall i :: 0 <= i < |KeysOf(pieces)| ==> KeysOf(pieces)[i] != "" && Strip(KeysOf(pieces)[i]) == KeysOf(pieces)[i]
    decreases |pieces|
  {
    if |pieces| > 0 {
      var init := pieces[..|pieces| - 1];
      KeysAreStripped(init);
      var key := Strip(pieces[|pieces| - 1]);
      if key != "" {
        StripUnpadded(key);
        assert KeysOf(pieces) == KeysOf(init) + [key];
      } else {
        assert KeysOf(pieces) == KeysOf(init);
      }
    }
  }

  lemma KeysOfPrefix(pieces: seq<string>, i: nat)
    requires i < |pieces|
    ensures Strip(pieces[i]) == "" ==> KeysOf(pieces[..i + 1]) == KeysOf(pieces[..i])
    ensures Strip(pieces[i]) != "" ==> KeysOf(pieces[..i + 1]) == KeysOf(pieces[..i]) + [Strip(pieces[i])]
  {
    assert pieces[..i + 1][..i] == pieces[..i];
  }

  /** The recipients of `users`, the user-key string. */
  function Recipients(users: string): seq<string> {
    KeysOf(Split(users, ','))
  }

  /** Every recipient is a non-empty, unpadded key without a comma. */
  lemma RecipientsClean(users: string)
    ensures forall i :: 0 <= i < |Recipients(users)| ==>
              Recipients(users)[i] != "" && ',' !in Recipients(users)[i] && Strip(Recipients(users)[i]) == Recipients(users)[i]
  {
    KeysAreStripped(Split(users, ','));
    SplitPiecesFree(users, ',');
    KeysComeFromPieces(Split(users, ','));
  }

  /** Every key is a stripped piece, so a key holds no separator when no
      piece does. */
  lemma {:induction false} KeysComeFromPieces(pieces: seq<string>)
    requires forall i :: 0 <= i < |pieces| ==> ',' !in pieces[i]
    ensures forall i :: 0 <= i < |KeysOf(pieces)| ==> ',' !in KeysOf(pieces)[i]
    decreases |pieces|
  {
    if |pieces| > 0 {
      var last := pieces[|pieces| - 1];
      KeysComeFromPieces(pieces[..|pieces| - 1]);
      var key := Strip(last);
      TrimStartDropsSpace(last);
      TrimEndDropsSpace(TrimStart(last));
      assert key == last[|last| - |TrimStart(last)|..][..|key|];
      assert forall k :: 0 <= k < |key| ==> key[k] in last by {
        forall k | 0 <= k < |key| ensures key[k] in last {
          assert key[k] == last[|last| - |TrimStart(last)| + k];
        }
      }
    }
  }

  /** The form fields every request of one alert shares; the script
      computes the title and priority once, before the loop. */
  datatype Payload = Payload(title: string, message: string, priority: int, sound: string, url: string, urlTitle: string)

  function PayloadFor(report: string, status: Status): Payload {
    Payload(Title(status), Truncated(report), Priority(status), Sound(status), LINK_URL, LINK_TITLE)
  }

  /** The request for one recipient. */
  function MessageFor(token: string, user: string, p: Payload): Message {
    Message(token, user, p.title, p.message, p.priority, p.sound, p.url, p.urlTitle)
  }

  /** One request per key, in the order of the keys. */
  function MessagesFor(token: string, keys: seq<string>, p: Payload): (ms: seq<Message>)
    ensures |ms| == |keys|
    decreases |keys|
  {
    if |keys| == 0 then []
    else MessagesFor(token, keys[..|keys| - 1], p) + [MessageFor(token, keys[|keys| - 1], p)]
  }

  /** Adding a key adds its request at the end. */
  lemma MessagesForSnoc(token: string, keys: seq<string>, key: string, p: Payload)
    ensures MessagesFor(token, keys + [key], p) == MessagesFor(token, keys, p) + [MessageFor(token, key, p)]
  {
    assert (keys + [key])[..|keys|] == keys;
  }

  /** The `i`-th request goes to the `i`-th key, with the same title,
      text, priority, sound and link for every key. */
  lemma {:induction false} MessagesForAt(token: string, keys: seq<string>, p: Payload)
    ensures forall i :: 0 <= i < |keys| ==> MessagesFor(token, keys, p)[i] == MessageFor(token, keys[i], p)
    decreases |keys|
  {
    if |keys| > 0 {
      var init := keys[..|keys| - 1];
      MessagesForAt(token, init, p);
      assert init + [keys[|keys| - 1]] == keys;
      MessagesForSnoc(token, init, keys[|keys| - 1], p);
    }
  }

  /** The requests the alert makes, in order: none when Pushover is not
      configured, else one per recipient. */
  function Requests(report: string, status: Status, token: Option<string>, users: string): (rs: seq<Message>)
    ensures !Configured(token, users) ==> rs == []
    ensures Configured(token, users) ==> |rs| == |Recipients(users)|
  {
    if !Configured(token, users) then [] else MessagesFor(token.value, Recipients(users), PayloadFor(report, status))
  }

  /** When configured, the `i`-th request carries the `i`-th recipient key;
      the title, sound and priority follow the status. */
  lemma RequestsAt(report: string, status: Status, token: Option<string>, users: string, i: int)
    requires Configured(token, users) && 0 <= i < |Recipients(users)|
    ensures var r := Requests(report, status, token, users)[i];
            r.user == Recipients(users)[i] && r.token == token.value
            && r.message == Truncated(report) && r.title == Title(status)
            && r.priority == Priority(status) && r.sound == Sound(status)
            && r.url == LINK_URL && r.urlTitle == LINK_TITLE
  {
    MessagesForAt(token.value, Recipients(users), PayloadFor(report, status));
  }

  /** The recipients whose request raised. */
  function FailedUsers(requests: seq<Message>, accepts: Message -> bool): (users: seq<string>)
    ensures |users| <= |requests|
    decreases |requests|
  {
    if |requests| == 0 then []
    else
      var last := requests[|requests| - 1];
      FailedUsers(requests[..|requests| - 1], accepts) + (if accepts(last) then [] else [last.user])
  }

  /** Sending one more request adds its user to the failures exactly when
      the request is rejected. */
  lemma FailedUsersSnoc(requests: seq<Message>, m: Message, accepts: Message -> bool)
    ensures FailedUsers(requests + [m], accepts)
            == FailedUsers(requests, accepts) + (if accepts(m) then [] else [m.user])
  {
    assert (requests + [m])[..|requests|] == requests;
  }

  /** One more piece adds the request for its key, if it has one. */
  lemma MessagesStep(token: string, pieces: seq<string>, i: nat, p: Payload)
    requires i < |pieces|
    ensures Strip(pieces[i]) == "" ==> MessagesFor(token, KeysOf(pieces[..i + 1]), p) == MessagesFor(token, KeysOf(pieces[..i]), p)
    ensures Strip(pieces[i]) != "" ==>
              MessagesFor(token, KeysOf(pieces[..i + 1]), p)
              == MessagesFor(token, KeysOf(pieces[..i]), p) + [MessageFor(token, Strip(pieces[i]), p)]
  {
    KeysOfPrefix(pieces, i);
    MessagesForSnoc(token, KeysOf(pieces[..i]), Strip(pieces[i]), p);
  }

  /** `send_pushover_alert(report, status)`: one request per recipient; an
      exception from one request is logged and the loop goes on. */
  method SendPushoverAlert(report: string, status: Status, token: Option<string>, users: string, accepts: Message -> bool)
    returns (requests: seq<Message>, failed: seq<string>)
    ensures requests == Requests(report, status, token, users)
    ensures failed == FailedUsers(requests, accepts)
  {
    if !Configured(token, users) {
      return [], [];
    }
    var payload := PayloadFor(report, status);
    requests, failed := SendToKeys(token.value, Split(users, ','), payload, accepts);
  }

  /** The loop over `users.split(",")`: strip each piece, skip the empty
      ones, and post one request per key. */
  method SendToKeys(token: string, pieces: seq<string>, p: Payload, accepts: Message -> bool)
    returns (requests: seq<Message>, failed: seq<string>)
    ensures requests == MessagesFor(token, KeysOf(pieces), p)
    ensures failed == FailedUsers(requests, accepts)
  {
    requests, failed := [], [];
    var i := 0;
    while i < |pieces|
      invariant 0 <= i <= |pieces|
      invariant requests == MessagesFor(token, KeysOf(pieces[..i]), p)
      invariant failed == FailedUsers(requests, accepts)
    {
      requests, failed := SendToPiece(token, pieces, i, p, accepts, requests, failed);
      i := i + 1;
    }
    assert pieces[..|pieces|] == pieces;
  }

  /** One round of the loop: strip the `i`-th piece and, unless it is
      blank, post its request, noting the user when the post raises. */
  method SendToPiece(token: string, pieces: seq<string>, i: nat, p: Payload, accepts: Message -> bool,
                     requests: seq<Message>, failed: seq<string>)
    returns (requests': seq<Message>, failed': seq<string>)
    requires i < |pieces|
    requires requests == MessagesFor(token, KeysOf(pieces[..i]), p)
    requires failed == FailedUsers(requests, accepts)
    ensures requests' == MessagesFor(token, KeysOf(pieces[..i + 1]), p)
    ensures failed' == FailedUsers(requests', accepts)
  {
    MessagesStep(token, pieces, i, p);
    requests', failed' := requests, failed;
    var userKey := Strip(pieces[i]);
    if userKey != "" {
      var m := MessageFor(token, userKey, p);
      FailedUsersSnoc(requests, m, accepts);
      if !accepts(m) {
        failed' := failed + [userKey];
      }
      requests' := requests + [m];
    }
  }

  /** Keys that are non-empty, unpadded and free of commas come back from
      the comma-joined string one for one: `Recipients` inverts the way a
      key list is written. */
  lemma RecipientsOfJoin(keys: seq<string>)
    requires forall i :: 0 <= i < |keys| ==> keys[i] != "" && ',' !in keys[i] && Strip(keys[i]) == keys[i]
    ensures Recipients(Join(keys, ',')) == keys
  {
    if |keys| == 0 {
      assert Join(keys, ',') == "";
      assert Split("", ',') == [""];
      assert Strip("") == "";
      assert KeysOf([""]) == KeysOf([]) + [];
    } else {
      SplitJoin(keys, ',');
      KeysOfPlain(keys);
      assert Recipients(Join(keys, ',')) == KeysOf(keys);
    }
  }

  lemma {:induction false} KeysOfPlain(keys: seq<string>)
    requires forall i :: 0 <= i < |keys| ==> keys[i] != "" && Strip(keys[i]) == keys[i]
    ensures KeysOf(keys) == keys
    decreases |keys|
  {
    if |keys| > 0 {
      KeysOfPlain(keys[..|keys| - 1]);
    }
  }

  /** One more comma-separated piece adds its stripped text as a
      recipient, or nothing when it is blank: spaces around keys and empty
      pieces (`"a, ,b,"`) do not create recipients. */
  lemma RecipientsAppend(users: string, piece: string)
    requires ',' !in piece
    ensures Recipients(users + [','] + piece)
            == Recipients(users) + (if Strip(piece) == "" then [] else [Strip(piece)])
  {
    SplitLast(users, piece, ',');
    var pieces := Split(users, ',') + [piece];
    KeysOfPrefix(pieces, |pieces| - 1);
    assert pieces[..|pieces| - 1] == Split(users, ',');
    assert pieces[..|pieces|] == pieces;
  }

  /** The failed users are exactly the users of the rejected requests, in
      order. */
  lemma {:induction false} FailedAreRejected(requests: seq<Message>, accepts: Message -> bool)
    ensures FailedUsers(requests, accepts) == [] <==> forall i :: 0 <= i < |requests| ==> accepts(requests[i])
    decreases |requests|
  {
    if |requests| > 0 {
      FailedAreRejected(requests[..|requests| - 1], accepts);
      var init := requests[..|requests| - 1];
      assert forall i :: 0 <= i < |init| ==> init[i] == requests[i];
    }
  }
}
