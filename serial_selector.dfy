/**
 * The serial port selector: the list of ports it shows, the port it shows
 * as selected, and the connection object it drives. `refresh` lists the
 * ports and picks, keeps or drops a port; selecting a port connects to it.
 */
module Selector {
  import opened Values
  import Connection

  /** The component state `{ports, currentPort}`; `ports` holds whatever `listPorts` returned. */
  datatype View = View(ports: Connection.Listing, currentPort: string)

  const InitialView := View(Connection.PortList([]), "")

  /** The component state, the connection's state and how the call ended. */
  datatype Refreshed = Refreshed(view: View, conn: Connection.ConnState, outcome: Outcome)

  /**
   * `refresh` with a connection object: list the ports; with no port shown
   * and some listed, connect to the first and show it; with none listed,
   * disconnect and show none; otherwise (a port shown, or the bridge's
   * `{err}` object, which has no `length`) only take what was returned.
   * The state is set after the awaited call, so a call that throws keeps
   * the view.
   */
  function RefreshResult(v: View, c: Connection.ConnState, listReply: Connection.ListReply,
                         closeReply: Connection.Settled, openReply: Connection.OpenReply): Refreshed
  {
    var listed := Connection.ListPortsResult(c, listReply);
    var ports := listed.availablePorts;
    if v.currentPort == "" && ports.PortList? && |ports.ports| > 0 then
      var r := Connection.ConnectResult(listed, ports.ports[0].path, closeReply, openReply);
      Refreshed(if r.outcome.Done? then View(ports, ports.ports[0].path) else v, r.state, r.outcome)
    else if ports.PortList? && |ports.ports| == 0 then
      var r := Connection.DisconnectResult(listed, closeReply);
      Refreshed(if r.outcome.Done? then View(ports, "") else v, r.state, r.outcome)
    else
      Refreshed(v.(ports := ports), listed, Done)
  }

  /** With no port shown and a non-empty list, `refresh` connects to the first port and then shows it with the list. */
  lemma RefreshPicksFirstPort(v: View, c: Connection.ConnState, listReply: Connection.ListReply,
                              closeReply: Connection.Settled, openReply: Connection.OpenReply)
    requires v.currentPort == "" && listReply.Ports? && |listReply.ports| > 0
    ensures var r := RefreshResult(v, c, listReply, closeReply, openReply);
      var p := listReply.ports[0].path;
      && r.conn == Connection.ConnectResult(Connection.ListPortsResult(c, listReply), p, closeReply, openReply).state
      && (r.outcome == Done ==> r.view == View(Connection.PortList(listReply.ports), p) && r.conn.currentPort == Some(p) && r.conn.connected == Flag(true))
      && (r.outcome != Done ==> r.view == v)
  {
    Connection.ConnectSucceeds(Connection.ListPortsResult(c, listReply), listReply.ports[0].path, closeReply, openReply);
  }

  /** With no port listed (an empty list, `null`/`undefined`, or a rejected call), `refresh` disconnects and then shows no port. */
  lemma RefreshWithoutPortsDisconnects(v: View, c: Connection.ConnState, listReply: Connection.ListReply,
                                       closeReply: Connection.Settled, openReply: Connection.OpenReply)
    requires Connection.ListedPorts(listReply) == Connection.PortList([])
    ensures var r := RefreshResult(v, c, listReply, closeReply, openReply);
      && r.conn == Connection.DisconnectResult(Connection.ListPortsResult(c, listReply), closeReply).state
      && (r.outcome == Done ==> r.view == View(Connection.PortList([]), ""))
      && (r.outcome != Done ==> r.view == v)
      && (closeReply == Connection.Resolved ==> !Connection.Truthy(r.conn.connected))
  {
  }

  /** With a port shown and a non-empty list, `refresh` only takes the list, even when the shown port is no longer in it. */
  lemma RefreshKeepsShownPort(v: View, c: Connection.ConnState, listReply: Connection.ListReply,
                              closeReply: Connection.Settled, openReply: Connection.OpenReply)
    requires v.currentPort != "" && listReply.Ports? && |listReply.ports| > 0
    ensures RefreshResult(v, c, listReply, closeReply, openReply)
            == Refreshed(View(Connection.PortList(listReply.ports), v.currentPort), Connection.ListPortsResult(c, listReply), Done)
  {
  }

  /**
   * When the bridge answers with its `{err}` object, `refresh` stores that
   * object as the port list and neither connects nor disconnects, even with
   * no port shown: the connection keeps its state and only the listing call
   * is added to the trace.
   */
  lemma RefreshAfterListingErrorKeepsPort(v: View, c: Connection.ConnState, listReply: Connection.ListReply,
                                          closeReply: Connection.Settled, openReply: Connection.OpenReply)
    requires listReply.ErrorObject?
    ensures var r := RefreshResult(v, c, listReply, closeReply, openReply);
      && r.outcome == Done
      && r.view == View(Connection.ErrorReply(listReply.err), v.currentPort)
      && r.conn.connected == c.connected && r.conn.currentPort == c.currentPort
      && r.conn.effects == c.effects + [Connection.Ipc(Connection.ListSerialPorts)]
  {
  }

  /**
   * Every `refresh` lists the ports first, and afterwards the view shows
   * either its old port or one of the listed ports or nothing.
   */
  lemma RefreshShowsListedPortOrKeeps(v: View, c: Connection.ConnState, listReply: Connection.ListReply,
                                      closeReply: Connection.Settled, openReply: Connection.OpenReply)
    ensures var r := RefreshResult(v, c, listReply, closeReply, openReply);
      && r.conn.effects[..|c.effects| + 1] == c.effects + [Connection.Ipc(Connection.ListSerialPorts)]
      && (r.view.currentPort == v.currentPort
          || r.view.currentPort == ""
          || (r.view.ports.PortList?
              && exists i :: 0 <= i < |r.view.ports.ports| && r.view.ports.ports[i].path == r.view.currentPort))
  {
    var listed := Connection.ListPortsResult(c, listReply);
    var ports := listed.availablePorts;
    if v.currentPort == "" && ports.PortList? && |ports.ports| > 0 {
      Connection.ConnectTraceGrows(listed, ports.ports[0].path, closeReply, openReply);
    } else if ports.PortList? && |ports.ports| == 0 {
      Connection.DisconnectClearsConnected(listed, closeReply);
    }
  }

  /** The selector component; `connection` is the `serialConnection` property, `null` by default. */
  class SerialSelector {
    var connection: Connection.SerialConnection?
    var ports: Connection.Listing
    var currentPort: string

    function ViewState(): View
      reads this
    {
      View(ports, currentPort)
    }

    constructor (connection: Connection.SerialConnection?)
      ensures this.connection == connection && ViewState() == InitialView
    {
      this.connection := connection;
      ports := Connection.PortList([]);
      currentPort := "";
    }

    /** `refresh`; without a connection object it returns at once and changes nothing. */
    method Refresh(listReply: Connection.ListReply, closeReply: Connection.Settled, openReply: Connection.OpenReply)
      returns (out: Outcome)
      modifies this, connection
      ensures connection == old(connection)
      ensures old(connection) == null ==> ViewState() == old(ViewState()) && out == Done
      ensures old(connection) != null ==>
        Refreshed(ViewState(), connection.State(), out)
        == RefreshResult(old(ViewState()), old(connection.State()), listReply, closeReply, openReply)
    {
      var c := connection;
      if c == null {
        return Done;
      }
      var listed := c.ListPorts(listReply);
      if currentPort == "" && listed.PortList? && |listed.ports| > 0 {
        out := c.SetPort(listed.ports[0].path, closeReply, openReply);
        if out.Threw? {
          return;
        }
        currentPort := listed.ports[0].path;
        ports := listed;
      } else if listed.PortList? && |listed.ports| == 0 {
        out := c.Disconnect(closeReply);
        if out.Threw? {
          return;
        }
        currentPort := "";
        ports := listed;
      } else {
        ports := listed;
        out := Done;
      }
    }

    /** `onSelect`: shows the selected port, then asks the connection object, if any, to connect to it. */
    method OnSelect(value: string, closeReply: Connection.Settled, openReply: Connection.OpenReply)
      returns (out: Outcome)
      modifies this, connection
      ensures connection == old(connection)
      ensures ViewState() == old(ViewState()).(currentPort := value)
      ensures old(connection) == null ==> out == Done
      ensures old(connection) != null ==>
        Connection.Step(connection.State(), out)
        == Connection.ConnectResult(old(connection.State()), value, closeReply, openReply)
    {
      currentPort := value;
      var c := connection;
      if c == null {
        return Done;
      }
      out := c.SetPort(value, closeReply, openReply);
    }
  }
}
