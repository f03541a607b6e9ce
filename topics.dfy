/** The subscription list: `MQTT_TOPICS` split on commas, each piece
    trimmed, every topic subscribed with quality of service 1. */
module Topics {
  import opened Text

  /** `list.split(",").map(|el| el.trim().to_string()).collect()`. */
  function ParseTopics(list: string): (topics: seq<string>)
    ensures |topics| == Count(list, ',') + 1
    ensures forall i :: 0 <= i < |topics| ==> Trimmed(topics[i]) && ',' !in topics[i]
  {
    var pieces := Split(list, ',');
    SplitCount(list, ',');
    seq(|pieces|, i requires 0 <= i < |pieces| => Trim(pieces[i]))
  }

  /** `vec![1; topics.len()]`: quality of service 1 for every topic. */
  function UniformQos(topics: seq<string>): (qos: seq<int>)
    ensures |qos| == |topics|
    ensures forall i :: 0 <= i < |qos| ==> qos[i] == 1
  {
    seq(|topics|, _ => 1)
  }

  /** The loop of `MqttClient::new` that pushes one 1 per topic. */
  method BuildQos(topics: seq<string>) returns (qos: seq<int>)
    ensures |qos| == |topics|
    ensures forall i :: 0 <= i < |qos| ==> qos[i] == 1
  {
    qos := [];
    for i := 0 to |topics|
      invariant |qos| == i
      invariant forall j :: 0 <= j < i ==> qos[j] == 1
    {
      qos := qos + [1];
    }
  }

  /** Topic names without commas and without surrounding whitespace,
      written as a comma-separated list, parse back to the same names. */
  lemma ParseTopicsOfJoin(topics: seq<string>)
    requires |topics| >= 1
    requires forall i :: 0 <= i < |topics| ==> Trimmed(topics[i]) && ',' !in topics[i]
    ensures ParseTopics(Join(topics, ',')) == topics
  {
    SplitJoin(topics, ',');
    forall i | 0 <= i < |topics|
      ensures Trim(topics[i]) == topics[i]
    {
      TrimOfTrimmed(topics[i]);
    }
  }

  /** Each comma-separated piece becomes one topic with its surrounding
      whitespace dropped; nothing is merged or skipped. */
  lemma ParseTopicsTrimsPieces(pieces: seq<string>)
    requires |pieces| >= 1
    requires forall i :: 0 <= i < |pieces| ==> ',' !in pieces[i]
    ensures var topics := ParseTopics(Join(pieces, ','));
      |topics| == |pieces| && forall i :: 0 <= i < |pieces| ==> topics[i] == Trim(pieces[i])
  {
    SplitJoin(pieces, ',');
  }

  /** A blank piece, such as the one between the commas of "a, ,b", is kept
      as an empty topic. */
  lemma BlankPieceKept(pieces: seq<string>, i: int)
    requires |pieces| >= 1 && 0 <= i < |pieces|
    requires forall j :: 0 <= j < |pieces| ==> ',' !in pieces[j]
    requires forall k :: 0 <= k < |pieces[i]| ==> IsWhitespace(pieces[i][k])
    ensures |ParseTopics(Join(pieces, ','))| == |pieces| && ParseTopics(Join(pieces, ','))[i] == ""
  {
    ParseTopicsTrimsPieces(pieces);
    BlankTrimmed(pieces[i]);
  }

  /** A string of whitespace trims to nothing. */
  lemma BlankTrimmed(s: string)
    requires forall k :: 0 <= k < |s| ==> IsWhitespace(s[k])
    ensures Trim(s) == ""
  {
    var t := TrimStart(s);
    if t != [] {
      assert false;
    }
  }
}
