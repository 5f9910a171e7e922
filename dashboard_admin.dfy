/**
 * The administrator dashboard: four counters filled in by four independent loads, the
 * count of today's reservations, the five most recent reservations and the redirect of
 * customers.
 */
module DashboardAdmin {
  import opened Entities
  import opened Lists

  /** The `stats` record. */
  datatype Stats = Stats(totalCanchas: nat, totalAdministradores: nat, reservasHoy: nat, clientesActivos: nat)

  /** The reservations whose `reservationDate` is exactly the text `today` (`YYYY-MM-DD`). */
  function ReservationsOn(reservas: seq<Reservation>, today: string): (r: seq<Reservation>)
    ensures forall x :: x in r <==> x in reservas && x.reservationDate == today
    ensures IsSubsequence(r, reservas)
  {
    FilterIsSubsequence(reservas, (x: Reservation) => x.reservationDate == today);
    Filter(reservas, (x: Reservation) => x.reservationDate == today)
  }

  /** `data.filter(reserva => reserva.reservationDate === today).length`. */
  function TodayCount(reservas: seq<Reservation>, today: string): (n: nat)
    ensures n <= |reservas|
    ensures n > 0 <==> exists i :: 0 <= i < |reservas| && reservas[i].reservationDate == today
  {
    var r := ReservationsOn(reservas, today);
    if |r| > 0 then
      assert r[0] in reservas;
      |r|
    else
      assert forall i :: 0 <= i < |reservas| ==> reservas[i] !in r;
      0
  }

  /** The count is additive: the reservations of two lists joined count as both lists' counts. */
  lemma {:induction false} TodayCountConcat(a: seq<Reservation>, b: seq<Reservation>, today: string)
    ensures TodayCount(a + b, today) == TodayCount(a, today) + TodayCount(b, today)
  {
    FilterConcat(a, b, (x: Reservation) => x.reservationDate == today);
  }

  /** On a day with every reservation on it, the count is the whole list. */
  lemma TodayCountAll(reservas: seq<Reservation>, today: string)
    requires forall i :: 0 <= i < |reservas| ==> reservas[i].reservationDate == today
    ensures TodayCount(reservas, today) == |reservas|
  {
    FilterKeepsAll(reservas, (x: Reservation) => x.reservationDate == today);
  }

  /** `data.slice(0, 5)`: the first five reservations, or all of them when there are fewer. */
  function Recent(reservas: seq<Reservation>): (r: seq<Reservation>)
    ensures |r| == if |reservas| < 5 then |reservas| else 5
    ensures forall i :: 0 <= i < |r| ==> r[i] == reservas[i]
  {
    if |reservas| < 5 then reservas else reservas[..5]
  }

  /** Taking the recent slice of the recent slice changes nothing. */
  lemma RecentIdempotent(reservas: seq<Reservation>)
    ensures Recent(Recent(reservas)) == Recent(reservas)
  {
  }

  /** The four loads the dashboard issues. */
  datatype Load = LoadCanchas | LoadAdmins | LoadClientes | LoadReservas

  /** What the mount effect does for the signed-in user's role. */
  datatype MountAction = Redirect(path: string) | Fetch(loads: seq<Load>)

  /** A customer is sent to `/` and nothing is loaded; any other role loads all four lists. */
  function MountEffect(role: string): (a: MountAction)
    ensures a.Redirect? <==> role == CUSTOMER
    ensures a.Redirect? ==> a.path == "/"
    ensures a.Fetch? ==> |a.loads| == 4 && LoadCanchas in a.loads && LoadAdmins in a.loads
                         && LoadClientes in a.loads && LoadReservas in a.loads
  {
    if role == CUSTOMER then Redirect("/") else Fetch([LoadCanchas, LoadAdmins, LoadClientes, LoadReservas])
  }

  /** The page's state. Each load that succeeds calls one of the `Receive` methods; a failed one changes nothing. */
  class DashboardPage {
    var stats: Stats
    var reservasRecientes: seq<Reservation>

    constructor ()
      ensures stats == Stats(0, 0, 0, 0) && reservasRecientes == []
    {
      stats := Stats(0, 0, 0, 0);
      reservasRecientes := [];
    }

    method ReceiveCanchas(data: seq<Field>)
      modifies this`stats
      ensures stats == old(stats).(totalCanchas := |data|)
    {
      stats := stats.(totalCanchas := |data|);
    }

    method ReceiveAdmins(data: seq<User>)
      modifies this`stats
      ensures stats == old(stats).(totalAdministradores := |data|)
    {
      stats := stats.(totalAdministradores := |data|);
    }

    method ReceiveClientes(data: seq<User>)
      modifies this`stats
      ensures stats == old(stats).(clientesActivos := |data|)
    {
      stats := stats.(clientesActivos := |data|);
    }

    /** The reservations load: today's count and the recent slice; the other counters stay. */
    method ReceiveReservas(data: seq<Reservation>, today: string)
      modifies this`stats, this`reservasRecientes
      ensures stats == old(stats).(reservasHoy := TodayCount(data, today))
      ensures reservasRecientes == Recent(data)
    {
      var count := |ReservationsOn(data, today)|;
      stats := stats.(reservasHoy := count);
      reservasRecientes := data[..if |data| < 5 then |data| else 5];
    }
  }
}
