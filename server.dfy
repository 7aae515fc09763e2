/**
 * The Socket.IO part of server.js: the three module-level globals `allCustomer`,
 * `allSeller` and `admin`, the helpers that update them, and the per-connection event
 * handlers. A handler runs to completion before the next one starts, so each is one
 * method; what it emits is returned, in emission order, as a sequence of `Outbound`.
 */
module Server {
  import opened Wrappers
  import opened Registry

  // Names of the events the server emits.
  const ACTIVE_SELLER := "activeSeller"
  const ACTIVE_CUSTOMER := "activeCustomer"
  const ACTIVE_ADMIN := "activeAdmin"
  const SELLER_MESSAGE := "seller_message"
  const CUSTOMER_MESSAGE := "customer_message"
  const RECEVED_ADMIN_MESSAGE := "receved_admin_message"
  const RECEVED_SELLER_MESSAGE := "receved_seller_message"

  /** What an emission carries: a presence list, `{status: b}`, or a relayed message as received. */
  datatype Body = Entries(list: seq<Entry>) | Status(status: bool) | Forwarded(msg: Info)

  /** `io.emit(event, body)` to everyone, or `soc.to(target).emit(event, body)` to one socket. */
  datatype Outbound =
    | Broadcast(event: string, body: Body)
    | SendTo(target: string, event: string, body: Body)

  /** `msg.receverId`, `None` when the key is absent (`undefined`). */
  function ReceiverId(msg: Info): Option<string>
  {
    if "receverId" in msg then Some(msg["receverId"]) else None
  }

  /**
   * The relay law shared by the three lookup-based `send_*` handlers: at most one
   * emission; it happens exactly when some entry of `list` carries the receiver id; it is
   * a point-to-point send of `event` with `msg` unchanged, addressed to the socket id of the
   * first entry carrying that id.
   */
  ghost predicate RelayedTo(out: seq<Outbound>, list: seq<Entry>, msg: Info, event: string)
  {
    (out == [] <==> !(ReceiverId(msg).Some? && Contains(list, ReceiverId(msg).value))) &&
    (out != [] ==>
      exists i | 0 <= i < |list| ::
        Some(list[i].id) == ReceiverId(msg) && !Contains(list[..i], list[i].id) &&
        out == [SendTo(list[i].socketId, event, Forwarded(msg))])
  }

  /**
   * Under the distinct-id invariant the relay has exactly one possible recipient: every entry carrying
   * the receiver id has the socket id the message was sent to.
   */
  lemma RelayedToUnique(out: seq<Outbound>, list: seq<Entry>, msg: Info, event: string, k: nat)
    requires Distinct(list) && RelayedTo(out, list, msg, event)
    requires k < |list| && Some(list[k].id) == ReceiverId(msg)
    ensures out == [SendTo(list[k].socketId, event, Forwarded(msg))]
  {
  }

  class Hub {
    var allCustomer: seq<Entry>
    var allSeller: seq<Entry>
    var admin: Info

    /** The distinct-id invariant on both lists, and the shape of the admin slot. */
    ghost predicate Valid()
      reads this
    {
      Distinct(allCustomer) && Distinct(allSeller) && AdminShaped(admin)
    }

    /** The registry at start-up: both lists empty, the admin slot the empty object. */
    constructor ()
      ensures Valid()
      ensures allCustomer == [] && allSeller == [] && admin == map[]
    {
      allCustomer, allSeller, admin := [], [], map[];
    }

    /** `addUser(customerId, socketId, userInfo)` */
    method AddUser(customerId: string, socketId: string, userInfo: Info)
      requires Valid()
      modifies this
      ensures Valid()
      ensures allCustomer == Added(old(allCustomer), customerId, socketId, userInfo)
      ensures allSeller == old(allSeller) && admin == old(admin)
    {
      AddKeepsDistinct(allCustomer, customerId, socketId, userInfo);
      if !Contains(allCustomer, customerId) {
        allCustomer := allCustomer + [Entry(customerId, socketId, userInfo)];
      }
    }

    /** `addSeller(sellerId, socketId, userInfo)` */
    method AddSeller(sellerId: string, socketId: string, userInfo: Info)
      requires Valid()
      modifies this
      ensures Valid()
      ensures allSeller == Added(old(allSeller), sellerId, socketId, userInfo)
      ensures allCustomer == old(allCustomer) && admin == old(admin)
    {
      AddKeepsDistinct(allSeller, sellerId, socketId, userInfo);
      if !Contains(allSeller, sellerId) {
        allSeller := allSeller + [Entry(sellerId, socketId, userInfo)];
      }
    }

    /** `remove(socketId)`: filter both lists; the admin slot is not touched. */
    method Remove(socketId: string)
      requires Valid()
      modifies this
      ensures Valid()
      ensures allCustomer == Without(old(allCustomer), socketId)
      ensures allSeller == Without(old(allSeller), socketId)
      ensures admin == old(admin)
      ensures forall e | e in allCustomer :: e.socketId != socketId
      ensures forall e | e in allSeller :: e.socketId != socketId
    {
      WithoutKeepsDistinct(allCustomer, socketId);
      WithoutKeepsDistinct(allSeller, socketId);
      allCustomer := Without(allCustomer, socketId);
      allSeller := Without(allSeller, socketId);
    }

    /** `removeAdmin(socketId)`: empty the slot if it holds this socket id. */
    method RemoveAdmin(socketId: string)
      requires Valid()
      modifies this
      ensures Valid()
      ensures admin == AdminAfterRemove(old(admin), socketId)
      ensures admin == map[] <==> old(admin) == map[] || old(admin)["socketId"] == socketId
      ensures admin != map[] ==> admin == old(admin)
      ensures allCustomer == old(allCustomer) && allSeller == old(allSeller)
    {
      AdminRemoval(admin, socketId);
      if "socketId" in admin && admin["socketId"] == socketId {
        admin := map[];
      }
    }

    /** `soc.on('add_user', (customerId, userInfo) => ...)` on the connection `socId`. */
    method OnAddUser(socId: string, customerId: string, userInfo: Info) returns (out: seq<Outbound>)
      requires Valid()
      modifies this
      ensures Valid()
      ensures allCustomer == Added(old(allCustomer), customerId, socId, userInfo)
      ensures allSeller == old(allSeller) && admin == old(admin)
      ensures out == [Broadcast(ACTIVE_SELLER, Entries(allSeller)),
                      Broadcast(ACTIVE_CUSTOMER, Entries(allCustomer))]
    {
      AddUser(customerId, socId, userInfo);
      out := [Broadcast(ACTIVE_SELLER, Entries(allSeller))];
      out := out + [Broadcast(ACTIVE_CUSTOMER, Entries(allCustomer))];
    }

    /**
     * `soc.on('add_seller', (sellerId, userInfo) => ...)`; it also announces the admin as
     * online, whether or not an admin is registered.
     */
    method OnAddSeller(socId: string, sellerId: string, userInfo: Info) returns (out: seq<Outbound>)
      requires Valid()
      modifies this
      ensures Valid()
      ensures allSeller == Added(old(allSeller), sellerId, socId, userInfo)
      ensures allCustomer == old(allCustomer) && admin == old(admin)
      ensures out == [Broadcast(ACTIVE_SELLER, Entries(allSeller)),
                      Broadcast(ACTIVE_CUSTOMER, Entries(allCustomer)),
                      Broadcast(ACTIVE_ADMIN, Status(true))]
    {
      AddSeller(sellerId, socId, userInfo);
      out := [Broadcast(ACTIVE_SELLER, Entries(allSeller))];
      out := out + [Broadcast(ACTIVE_CUSTOMER, Entries(allCustomer))];
      out := out + [Broadcast(ACTIVE_ADMIN, Status(true))];
    }

    /**
     * `soc.on('add_admin', adminInfo => ...)`: the slot is overwritten unconditionally
     * (last registration wins) with the profile minus `email` plus the connection's own
     * socket id; the customer list is not re-broadcast.
     */
    method OnAddAdmin(socId: string, adminInfo: Info) returns (out: seq<Outbound>)
      requires Valid()
      modifies this
      ensures Valid()
      ensures admin == RegisteredAdmin(adminInfo, socId)
      ensures "email" !in admin && admin["socketId"] == socId
      ensures allCustomer == old(allCustomer) && allSeller == old(allSeller)
      ensures out == [Broadcast(ACTIVE_SELLER, Entries(allSeller)),
                      Broadcast(ACTIVE_ADMIN, Status(true))]
    {
      var stripped := adminInfo - {"email"};
      admin := stripped["socketId" := socId];
      out := [Broadcast(ACTIVE_SELLER, Entries(allSeller))];
      out := out + [Broadcast(ACTIVE_ADMIN, Status(true))];
    }

    /** `soc.on('send_seller_message', msg => ...)`: a seller writes to a customer. */
    method OnSendSellerMessage(msg: Info) returns (out: seq<Outbound>)
      ensures RelayedTo(out, allCustomer, msg, SELLER_MESSAGE)
    {
      out := Relay(allCustomer, msg, SELLER_MESSAGE);
    }

    /** `soc.on('send_customer_message', msg => ...)`: a customer writes to a seller. */
    method OnSendCustomerMessage(msg: Info) returns (out: seq<Outbound>)
      ensures RelayedTo(out, allSeller, msg, CUSTOMER_MESSAGE)
    {
      out := Relay(allSeller, msg, CUSTOMER_MESSAGE);
    }

    /** `soc.on('send_message_admin_to_seller', msg => ...)`: the admin writes to a seller. */
    method OnSendMessageAdminToSeller(msg: Info) returns (out: seq<Outbound>)
      ensures RelayedTo(out, allSeller, msg, RECEVED_ADMIN_MESSAGE)
    {
      out := Relay(allSeller, msg, RECEVED_ADMIN_MESSAGE);
    }

    /**
     * `soc.on('send_message_seller_to_admin', msg => ...)`: a seller writes to the admin;
     * delivered only when `admin.socketId` is truthy.
     */
    method OnSendMessageSellerToAdmin(msg: Info) returns (out: seq<Outbound>)
      ensures out == [] <==> !("socketId" in admin && admin["socketId"] != "")
      ensures out != [] ==> out == [SendTo(admin["socketId"], RECEVED_SELLER_MESSAGE, Forwarded(msg))]
    {
      var target := AdminTarget(admin);
      if target.Some? {
        out := [SendTo(target.value, RECEVED_SELLER_MESSAGE, Forwarded(msg))];
      } else {
        out := [];
      }
    }

    /**
     * `soc.on('disconnect', ...)`: remove the socket from both lists and from the admin
     * slot, then announce the admin offline (even when this socket was not the admin) and
     * re-broadcast both lists.
     */
    method OnDisconnect(socId: string) returns (out: seq<Outbound>)
      requires Valid()
      modifies this
      ensures Valid()
      ensures allCustomer == Without(old(allCustomer), socId)
      ensures allSeller == Without(old(allSeller), socId)
      ensures admin == AdminAfterRemove(old(admin), socId)
      ensures forall e | e in allCustomer :: e.socketId != socId
      ensures forall e | e in allSeller :: e.socketId != socId
      ensures AdminTarget(admin) != Some(socId)
      ensures out == [Broadcast(ACTIVE_ADMIN, Status(false)),
                      Broadcast(ACTIVE_SELLER, Entries(allSeller)),
                      Broadcast(ACTIVE_CUSTOMER, Entries(allCustomer))]
    {
      Remove(socId);
      RemoveAdmin(socId);
      out := [Broadcast(ACTIVE_ADMIN, Status(false))];
      out := out + [Broadcast(ACTIVE_SELLER, Entries(allSeller))];
      out := out + [Broadcast(ACTIVE_CUSTOMER, Entries(allCustomer))];
    }
  }

  /**
   * The body shared by the lookup-based `send_*` handlers: look the receiver id up and,
   * when an entry is found, send the message unchanged to that entry's socket.
   */
  method Relay(list: seq<Entry>, msg: Info, event: string) returns (out: seq<Outbound>)
    ensures RelayedTo(out, list, msg, event)
  {
    var rid := ReceiverId(msg);
    if rid.None? {
      out := [];
    } else {
      var found := Find(list, rid.value);
      if found.Some? {
        out := [SendTo(found.value.socketId, event, Forwarded(msg))];
      } else {
        out := [];
      }
    }
  }
}
