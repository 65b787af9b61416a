/**
 * The booking service (carRentalService/booking/booking.go): making and
 * cancelling reservations over the Reservations and Vehicles tables, which are
 * maps keyed by their ids. A vehicle goes Available -> Booked when reserved and
 * back when the reservation is cancelled; a reservation goes Active ->
 * Cancelled. Statuses are the strings the tables hold.
 */
module Booking {

  const Available: string := "Available"
  const Booked: string := "Booked"
  const Active: string := "Active"
  const Cancelled: string := "Cancelled"

  /** A row of Reservations; times are opaque integers, never inspected. */
  datatype Reservation = Reservation(userId: int, vehicleId: int, startTime: int, endTime: int, status: string)

  /** A row of Vehicles. */
  datatype Vehicle = Vehicle(vehicleName: string, licensePlate: string, availabilityStatus: string, hourlyRate: real)

  datatype BookingError = VehicleNotFound | VehicleNotAvailable | ReservationNotFound

  datatype Outcome = Done | Failed(error: BookingError)

  /** Whether some Active reservation holds the vehicle. */
  ghost predicate HasActive(reservations: map<int, Reservation>, vehicleId: int)
  {
    exists id :: id in reservations && reservations[id].status == Active && reservations[id].vehicleId == vehicleId
  }

  /** No vehicle is held by two Active reservations. */
  ghost predicate AtMostOneActive(reservations: map<int, Reservation>)
  {
    forall i, j ::
      i in reservations && j in reservations
      && reservations[i].status == Active && reservations[j].status == Active
      && reservations[i].vehicleId == reservations[j].vehicleId
      ==> i == j
  }

  /** A vehicle is Booked exactly when an Active reservation holds it. */
  ghost predicate BookedIffActive(reservations: map<int, Reservation>, vehicles: map<int, Vehicle>)
  {
    forall v :: v in vehicles ==> (vehicles[v].availabilityStatus == Booked <==> HasActive(reservations, v))
  }

  /** The consistency the two operations keep between the tables. */
  ghost predicate Consistent(reservations: map<int, Reservation>, vehicles: map<int, Vehicle>)
  {
    AtMostOneActive(reservations) && BookedIffActive(reservations, vehicles)
  }

  /** The Reservations and Vehicles tables of the vehicle database. */
  class BookingService {
    var reservations: map<int, Reservation>
    var nextReservationId: int
    var vehicles: map<int, Vehicle>

    ghost predicate Valid()
      reads this
    {
      (forall id :: id in reservations ==> id < nextReservationId) && Consistent(reservations, vehicles)
    }

    /** A fleet with no reservations is consistent when no vehicle is marked Booked. */
    constructor (vehicles: map<int, Vehicle>)
      requires forall v :: v in vehicles ==> vehicles[v].availabilityStatus != Booked
      ensures Valid() && reservations == map[] && this.vehicles == vehicles
    {
      reservations := map[];
      nextReservationId := 1;
      this.vehicles := vehicles;
    }

    /**
     * MakeReservation: refused when the vehicle does not exist or is not
     * exactly Available (the times play no part); otherwise one Active
     * reservation is inserted and the vehicle becomes Booked.
     */
    method MakeReservation(userId: int, vehicleId: int, startTime: int, endTime: int) returns (r: Outcome)
      requires Valid()
      modifies this`reservations, this`nextReservationId, this`vehicles
      ensures Valid()
      ensures vehicleId !in old(vehicles) ==> r == Failed(VehicleNotFound)
      ensures vehicleId in old(vehicles) && old(vehicles)[vehicleId].availabilityStatus != Available ==>
                r == Failed(VehicleNotAvailable)
      ensures r.Failed? ==> reservations == old(reservations) && vehicles == old(vehicles)
                            && nextReservationId == old(nextReservationId)
      ensures vehicleId in old(vehicles) && old(vehicles)[vehicleId].availabilityStatus == Available ==>
                && r == Done
                && reservations == old(reservations)[old(nextReservationId) := Reservation(userId, vehicleId, startTime, endTime, Active)]
                && nextReservationId == old(nextReservationId) + 1
                && vehicles == old(vehicles)[vehicleId := old(vehicles)[vehicleId].(availabilityStatus := Booked)]
    {
      if vehicleId !in vehicles {
        return Failed(VehicleNotFound);
      }
      if vehicles[vehicleId].availabilityStatus != Available {
        return Failed(VehicleNotAvailable);
      }
      assert !HasActive(reservations, vehicleId);
      var id := nextReservationId;
      reservations := reservations[id := Reservation(userId, vehicleId, startTime, endTime, Active)];
      nextReservationId := nextReservationId + 1;
      vehicles := vehicles[vehicleId := vehicles[vehicleId].(availabilityStatus := Booked)];
      assert reservations[id].status == Active && reservations[id].vehicleId == vehicleId;
      assert HasActive(reservations, vehicleId);
      forall v | v in vehicles && v != vehicleId
        ensures HasActive(reservations, v) == HasActive(old(reservations), v)
      {
        if HasActive(reservations, v) {
          var w :| w in reservations && reservations[w].status == Active && reservations[w].vehicleId == v;
          assert w != id;
        }
        if HasActive(old(reservations), v) {
          var w :| w in old(reservations) && old(reservations)[w].status == Active && old(reservations)[w].vehicleId == v;
          assert w != id && reservations[w] == old(reservations)[w];
        }
      }
      r := Done;
    }

    /**
     * CancelReservation: only an Active reservation is found; it becomes
     * Cancelled and its vehicle Available (a vehicle row that is gone is left
     * alone, as an UPDATE matching no row does).
     */
    method CancelReservation(reservationId: int) returns (r: Outcome)
      requires Valid()
      modifies this`reservations, this`vehicles
      ensures Valid()
      ensures r == Done || r == Failed(ReservationNotFound)
      ensures r == Failed(ReservationNotFound)
          <==> reservationId !in old(reservations) || old(reservations)[reservationId].status != Active
      ensures r.Failed? ==> reservations == old(reservations) && vehicles == old(vehicles)
      ensures r == Done ==>
                var vehicleId := old(reservations)[reservationId].vehicleId;
                && reservations == old(reservations)[reservationId := old(reservations)[reservationId].(status := Cancelled)]
                && vehicles == if vehicleId in old(vehicles)
                               then old(vehicles)[vehicleId := old(vehicles)[vehicleId].(availabilityStatus := Available)]
                               else old(vehicles)
    {
      if reservationId !in reservations || reservations[reservationId].status != Active {
        return Failed(ReservationNotFound);
      }
      var vehicleId := reservations[reservationId].vehicleId;
      reservations := reservations[reservationId := reservations[reservationId].(status := Cancelled)];
      if vehicleId in vehicles {
        vehicles := vehicles[vehicleId := vehicles[vehicleId].(availabilityStatus := Available)];
      }
      assert !HasActive(reservations, vehicleId);
      forall v | v in vehicles && v != vehicleId
        ensures HasActive(reservations, v) == HasActive(old(reservations), v)
      {
        if HasActive(old(reservations), v) {
          var w :| w in old(reservations) && old(reservations)[w].status == Active && old(reservations)[w].vehicleId == v;
          assert w != reservationId;
          assert reservations[w] == old(reservations)[w];
        }
      }
      r := Done;
    }
  }

  /** Cancelling the same reservation twice: the second attempt is not found, so the tables end as one cancel leaves them. */
  method CancelTwice(service: BookingService, reservationId: int) returns (first: Outcome, second: Outcome)
    requires service.Valid()
    modifies service`reservations, service`vehicles
    ensures service.Valid()
    ensures first == Done ==> second == Failed(ReservationNotFound)
    ensures first.Failed? ==> second == first
    ensures first == Done ==>
              && reservationId in old(service.reservations)
              && var vehicleId := old(service.reservations)[reservationId].vehicleId;
              && service.reservations
                   == old(service.reservations)[reservationId := old(service.reservations)[reservationId].(status := Cancelled)]
              && service.vehicles
                   == if vehicleId in old(service.vehicles)
                      then old(service.vehicles)[vehicleId := old(service.vehicles)[vehicleId].(availabilityStatus := Available)]
                      else old(service.vehicles)
    ensures first.Failed? ==> service.reservations == old(service.reservations) && service.vehicles == old(service.vehicles)
  {
    first := service.CancelReservation(reservationId);
    second := service.CancelReservation(reservationId);
  }
}
