/**
 * The packet builder: turns a measurement, its fields and its tags into the
 * one-point list handed to the time-series backend.
 */
module Packet {
  import opened Config

  /** A field value; the library passes it through without looking at it. */
  datatype Value = Str(s: string) | Int(i: int) | Bool(b: bool)

  /** The UTC instant a packet is stamped with, supplied by the caller. */
  type Instant = int

  type Tags = map<string, string>

  /** One data point of the backend's wire format. */
  datatype Point = Point(measurement: string, tags: Tags, fields: map<string, Value>, time: Instant)

  /**
   * What `tags.update(extra)` leaves in `tags`: every key of either map,
   * the value of `extra` winning on a shared key.
   */
  function Merge(tags: Tags, extra: Tags): (r: Tags)
    ensures r.Keys == tags.Keys + extra.Keys
    ensures forall k :: k in extra ==> r[k] == extra[k]
    ensures forall k :: k in tags && k !in extra ==> r[k] == tags[k]
  {
    tags + extra
  }

  /** The new contents of the tags dictionary and the packet built from it. */
  datatype Built = Built(tags: Tags, packet: seq<Point>)

  /**
   * `_generate_data_packet` on values: the tag dictionary afterwards holds
   * the caller's tags merged with the configured extra tags, and the packet
   * is a single point carrying exactly the arguments and the build instant.
   */
  function BuildPacket(cfg: Settings, measurement: string, fields: map<string, Value>, tags: Tags, now: Instant): (r: Built)
    ensures r.tags == Merge(tags, ExtraTags(cfg))
    ensures |r.packet| == 1
    ensures r.packet[0].measurement == measurement && r.packet[0].fields == fields
    ensures r.packet[0].tags == r.tags && r.packet[0].time == now
  {
    var merged := Merge(tags, ExtraTags(cfg));
    Built(merged, [Point(measurement, merged, fields, now)])
  }

  /** Merging the same extra tags a second time changes nothing. */
  lemma MergeIdempotent(tags: Tags, extra: Tags)
    ensures Merge(Merge(tags, extra), extra) == Merge(tags, extra)
  {
    var once := Merge(tags, extra);
    var twice := Merge(once, extra);
    assert twice.Keys == once.Keys;
    forall k | k in once
      ensures twice[k] == once[k]
    {
      if k in extra {
        assert twice[k] == extra[k] == once[k];
      }
    }
  }

  /**
   * A dictionary reused across builds (the shared `{}` default) holds the
   * extra tags after the first build and keeps holding them after every
   * later one.
   */
  lemma SharedDefaultSettles(cfg: Settings, m1: string, f1: map<string, Value>, t1: Instant,
                             m2: string, f2: map<string, Value>, t2: Instant)
    ensures BuildPacket(cfg, m1, f1, map[], t1).tags == ExtraTags(cfg)
    ensures BuildPacket(cfg, m2, f2, BuildPacket(cfg, m1, f1, map[], t1).tags, t2).tags == ExtraTags(cfg)
  {
    var extra := ExtraTags(cfg);
    var first := BuildPacket(cfg, m1, f1, map[], t1).tags;
    assert first.Keys == extra.Keys;
    assert first == extra;
    MergeIdempotent(map[], extra);
  }

  /** A mutable tag dictionary, shared by reference as in Python. */
  class TagDict {
    var entries: Tags

    constructor (entries: Tags)
      ensures this.entries == entries
    {
      this.entries := entries;
    }
  }
}
