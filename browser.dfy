/**
 * The browser's Notification API as the page scripts see it: whether the
 * global `Notification` exists, the page-wide `Notification.permission`,
 * `Notification.requestPermission()` and the `new Notification(...)`
 * constructor, together with the local storage and the class list of the
 * document element. The user's answer to a prompt is an input.
 */
module Browser {
  import opened Config

  datatype Permission = Default | Granted | Denied

  /** The title and options handed to `new Notification(title, options)`. */
  datatype Notice = Notice(
    title: string,
    body: string,
    icon: string,
    badge: string,
    tag: string,
    requireInteraction: bool)

  class NotificationApi {
    /** `typeof Notification !== 'undefined'`. */
    const supported: bool
    /** Whether the constructor throws on this platform (some mobile browsers
        only allow notifications through a service worker). */
    const constructorThrows: bool
    /** `Notification.permission`. */
    var permission: Permission
    /** The notifications displayed so far, oldest first. */
    var shown: seq<Notice>

    constructor(supported: bool, constructorThrows: bool, permission: Permission)
      ensures this.supported == supported && this.constructorThrows == constructorThrows
      ensures this.permission == permission && shown == []
    {
      this.supported := supported;
      this.constructorThrows := constructorThrows;
      this.permission := permission;
      shown := [];
    }

    /** `Notification.requestPermission()`. The user is asked only while the
        permission is still the default; their answer becomes the permission.
        A decision already taken is returned as it stands. */
    method RequestPermission(answer: Permission) returns (result: Permission)
      requires supported
      modifies this
      ensures old(permission) == Default ==> result == answer
      ensures old(permission) != Default ==> result == old(permission)
      ensures permission == result
      ensures shown == old(shown)
    {
      if permission == Default {
        permission := answer;
      }
      result := permission;
    }

    /** `new Notification(n.title, ...)`. Returns false when the constructor
        throws. A constructed notification is displayed only under a granted
        permission. */
    method Create(n: Notice) returns (created: bool)
      requires supported
      modifies this
      ensures created == !constructorThrows
      ensures shown == if created && permission == Granted then old(shown) + [n] else old(shown)
      ensures permission == old(permission)
    {
      created := !constructorThrows;
      if created && permission == Granted {
        shown := shown + [n];
      }
    }
  }

  /** `window.localStorage`: string items under string keys. */
  class LocalStorage {
    var items: map<string, string>

    constructor(items: map<string, string>)
      ensures this.items == items
    {
      this.items := items;
    }

    /** `getItem(key)`, `null` being `None`. */
    function GetItem(key: string): (r: Option<string>)
      reads this
      ensures r.Some? <==> key in items
      ensures r.Some? ==> r.value == items[key]
    {
      if key in items then Some(items[key]) else None
    }

    /** `removeItem(key)`. */
    method RemoveItem(key: string)
      modifies this
      ensures items == old(items) - {key}
    {
      items := items - {key};
    }
  }

  /** `element.classList`, as the set of class names it holds. */
  class ClassList {
    var classes: set<string>

    constructor(classes: set<string>)
      ensures this.classes == classes
    {
      this.classes := classes;
    }

    method Add(name: string)
      modifies this
      ensures classes == old(classes) + {name}
    {
      classes := classes + {name};
    }

    method Remove(name: string)
      modifies this
      ensures classes == old(classes) - {name}
    {
      classes := classes - {name};
    }
  }
}
