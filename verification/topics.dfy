/** Topic names. The helper that builds them is not part of this model; the
    shapes below are the ones the device's tools subscribe and publish to:
    device ("thing") topics `TNG/<id>/TPC/<suffix>`, group topics
    `GRP/<group>/TPC/<suffix>`, and lifecycle topics under `TNG/<id>/LC/`. */
module Topics {

  const THING_ROOT := "TNG/"
  const GROUP_ROOT := "GRP/"
  const TOPIC_PART := "/TPC/"
  const LIFECYCLE_PART := "/LC/"

  /** The two lifecycle topics of a device: the will (offline) and the online announcement. */
  datatype LifeCycle = LifeCycleOffline | LifeCycleOnline

  function LifeCycleName(lc: LifeCycle): string {
    match lc
    case LifeCycleOffline => "offline"
    case LifeCycleOnline => "online"
  }

  /** The device-scoped topic `TNG/<id>/TPC/<suffix>`. */
  function ThingTopic(id: string, suffix: string): string {
    THING_ROOT + id + TOPIC_PART + suffix
  }

  /** The group-scoped topic `GRP/<group>/TPC/<suffix>`. */
  function GroupTopic(grp: string, suffix: string): string {
    GROUP_ROOT + grp + TOPIC_PART + suffix
  }

  /** The lifecycle topic `TNG/<id>/LC/<online|offline>`. */
  function LifeCycleTopic(id: string, lc: LifeCycle): string {
    THING_ROOT + id + LIFECYCLE_PART + LifeCycleName(lc)
  }

  /** Two devices share a device topic for one suffix only when they share an id. */
  lemma ThingTopicInjectiveInId(a: string, b: string, suffix: string)
    ensures ThingTopic(a, suffix) == ThingTopic(b, suffix) <==> a == b
  {
    if ThingTopic(a, suffix) == ThingTopic(b, suffix) {
      var t := ThingTopic(a, suffix);
      assert |a| == |b|;
      assert a == t[4..4 + |a|];
      assert b == ThingTopic(b, suffix)[4..4 + |b|];
    }
  }

  /** One device's topics for two suffixes coincide only when the suffixes do. */
  lemma ThingTopicInjectiveInSuffix(id: string, s: string, t: string)
    ensures ThingTopic(id, s) == ThingTopic(id, t) <==> s == t
  {
    if ThingTopic(id, s) == ThingTopic(id, t) {
      var n := |THING_ROOT + id + TOPIC_PART|;
      assert s == ThingTopic(id, s)[n..];
      assert t == ThingTopic(id, t)[n..];
    }
  }

  /** No device topic is ever a group topic: their roots differ in the first byte. */
  lemma ThingTopicIsNotGroupTopic(id: string, s: string, grp: string, t: string)
    ensures ThingTopic(id, s) != GroupTopic(grp, t)
  {
    assert ThingTopic(id, s)[0] == 'T';
    assert GroupTopic(grp, t)[0] == 'G';
  }

  /** A device's will topic and online topic are different topics. */
  lemma LifeCycleTopicsDiffer(id: string)
    ensures LifeCycleTopic(id, LifeCycleOffline) != LifeCycleTopic(id, LifeCycleOnline)
  {
    assert |LifeCycleTopic(id, LifeCycleOffline)| != |LifeCycleTopic(id, LifeCycleOnline)|;
  }
}
