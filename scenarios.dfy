/**
 * Fake-mode usage as the package's own tests exercise it: a fresh manager is
 * switched to fake mode, messages are published, and the assertion helpers
 * are asked about the log.
 */
module Scenarios {
  import opened Wrappers
  import opened Messages
  import opened FakeConnections
  import opened Herald

  /** The log the scenario below builds, as the types of its messages. */
  lemma ThreeMessageCounts(log: seq<Message>)
    requires |log| == 3
    requires log[0].eventType == "user.created" && log[1].eventType == "user.created" && log[2].eventType == "order.created"
    ensures multiset(EventTypes(log))["user.created"] == 2
    ensures multiset(EventTypes(log))["order.created"] == 1
  {
    assert EventTypes(log) == [log[0].eventType, log[1].eventType, log[2].eventType];
  }

  /** A fresh manager in fake mode after two `user.created` and one `order.created`. */
  method PublishThree(config: Config, registry: HandlerTable) returns (h: HeraldManager)
    requires registry.Valid()
    ensures fresh(h) && h.Valid() && h.isFaking
    ensures |h.Published()| == 3
    ensures h.Published()[0].eventType == "user.created" && h.Published()[1].eventType == "user.created"
    ensures h.Published()[2].eventType == "order.created"
    ensures h.Published()[1].payload == map["user_id" := JNumber("456")]
  {
    h := new HeraldManager(config, registry);
    h.Fake();
    var r1 := h.Publish("user.created", map["user_id" := JNumber("123")], None, None, "1");
    var r2 := h.Publish("user.created", map["user_id" := JNumber("456")], None, None, "2");
    var r3 := h.Publish("order.created", map["order_id" := JNumber("789")], None, None, "3");
  }

  /**
   * Two `user.created` and one `order.created`: the counts are 2 and 1, any
   * other count fails, and a callback on the payload picks out one message.
   */
  method PublishedTimes(config: Config, registry: HandlerTable) returns (users: bool, orders: bool, wrong: bool, byPayload: bool)
    requires registry.Valid()
    ensures users && orders && !wrong && byPayload
  {
    var h := PublishThree(config, registry);
    ThreeMessageCounts(h.Published());
    users := h.AssertPublishedTimes("user.created", 2);
    orders := h.AssertPublishedTimes("order.created", 1);
    wrong := h.AssertPublishedTimes("user.created", 1);
    var second := (m: Message) => "user_id" in m.payload && m.payload["user_id"] == JNumber("456");
    assert Matches(h.Published()[1], "user.created", Some(second));
    byPayload := h.AssertPublished("user.created", Some(second));
  }

  /** A caller's id is kept verbatim and a generated one is never empty. */
  method PublishedIds(config: Config, registry: HandlerTable) returns (ids: seq<string>)
    requires registry.Valid()
    ensures |ids| == 2 && ids[0] == "custom-id-123" && ids[1] != ""
  {
    var h := new HeraldManager(config, registry);
    h.Fake();
    var r1 := h.Publish("user.created", map["user_id" := JNumber("123")], Some("custom-id-123"), None, "a");
    var r2 := h.Publish("user.created", map["user_id" := JNumber("123")], None, None, "");
    var log := h.Published();
    ids := [log[0].id, log[1].id];
  }
}
