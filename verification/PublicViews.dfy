/** What clients see of a device, and when two devices look the same to them. */
module PublicViews {
  import opened Wrappers
  import opened Devices

  /** The two fields of a family that are private. */
  predicate SameButPrivate(b: Body, c: Body) {
    match b
    case Light(_, _, _, _, since) => c.Light? && c.(noPresenceSince := since) == b
    case Environment(_, _, _, _, _, until) => c.Environment? && c.(manualInjectionUntil := until) == b
    case _ => c == b
  }

  function CategoryOf(d: Device, categories: map<string, Category>): Option<Category> {
    if d.categoryId.Some? && d.categoryId.value in categories then Some(categories[d.categoryId.value]) else None
  }

  /** Each public field is the device's own, the category is looked up. */
  lemma ViewShows(d: Device, categories: map<string, Category>)
    ensures var v := PublicView(d, categories);
      && v.id == d.id && v.name == d.name && v.roomId == d.roomId && v.kind == d.kind && v.online == d.online
      && v.stateVersion == d.stateVersion && v.updatedAt == d.updatedAt && v.removable == d.removable
      && v.category == CategoryOf(d, categories) && SameButPrivate(v.body, d.body)
  {
  }

  /** Two devices look the same exactly when they agree in everything that is not private: the injected delay and
      failure, the capabilities, a light's absence and a sensor's injection do not show. */
  lemma SameViewExactly(d: Device, e: Device, categories: map<string, Category>)
    ensures PublicView(d, categories) == PublicView(e, categories)
            <==> && d.id == e.id && d.name == e.name && d.roomId == e.roomId && d.kind == e.kind
                 && d.online == e.online && d.stateVersion == e.stateVersion && d.updatedAt == e.updatedAt
                 && d.removable == e.removable && CategoryOf(d, categories) == CategoryOf(e, categories)
                 && SameButPrivate(d.body, e.body)
  {
  }
}
