/** Ordinal encoders for the categorical survey answers. Each encoder looks
    the answer up in a fixed table and falls back to 0 for any string the
    table does not hold, so an unrecognised answer is indistinguishable from
    the first label. */
module Encoding {

  /** Answers to CAEC (snacking) and CALC (alcohol), in encoding order. */
  const FrequencyLabels: seq<string> := ["no", "Sometimes", "Frequently", "Always"]

  /** Answers to MTRANS (usual transport), in encoding order. */
  const TransportLabels: seq<string> := ["Walking", "Bike", "Motorbike", "Automobile", "Public_Transportation"]

  /** The lookup `mapping[s] ?? 0` shared by encodeCAEC and encodeCALC,
      whose tables are identical. */
  function EncodeFrequency(s: string): (r: nat)
    ensures r < |FrequencyLabels|
    ensures s in FrequencyLabels ==> FrequencyLabels[r] == s
    ensures s !in FrequencyLabels ==> r == 0
  {
    var mapping := map["no" := 0, "Sometimes" := 1, "Frequently" := 2, "Always" := 3];
    if s in mapping then mapping[s] else 0
  }

  /** encodeMTRANS: position in the transport table, 0 when absent. */
  function EncodeTransport(s: string): (r: nat)
    ensures r < |TransportLabels|
    ensures s in TransportLabels ==> TransportLabels[r] == s
    ensures s !in TransportLabels ==> r == 0
  {
    var mapping := map["Walking" := 0, "Bike" := 1, "Motorbike" := 2, "Automobile" := 3, "Public_Transportation" := 4];
    if s in mapping then mapping[s] else 0
  }

  /** Decoding a level and encoding it again gives the level back: every
      position of the frequency table is reached by exactly its label. */
  lemma FrequencyRoundTrip(i: nat)
    requires i < |FrequencyLabels|
    ensures EncodeFrequency(FrequencyLabels[i]) == i
  {
    var r := EncodeFrequency(FrequencyLabels[i]);
    assert FrequencyLabels[r] == FrequencyLabels[i];
  }

  lemma TransportRoundTrip(i: nat)
    requires i < |TransportLabels|
    ensures EncodeTransport(TransportLabels[i]) == i
  {
    var r := EncodeTransport(TransportLabels[i]);
    assert TransportLabels[r] == TransportLabels[i];
  }

  /** Two recognised answers share a code only when they are the same
      answer; an unrecognised answer collides with "no". */
  lemma FrequencyInjectiveOnLabels(s: string, t: string)
    requires s in FrequencyLabels && t in FrequencyLabels
    ensures EncodeFrequency(s) == EncodeFrequency(t) <==> s == t
  {
  }

  lemma TransportInjectiveOnLabels(s: string, t: string)
    requires s in TransportLabels && t in TransportLabels
    ensures EncodeTransport(s) == EncodeTransport(t) <==> s == t
  {
  }
}
