/** What travels between the browser and the booking routes. */
module Wire {

  /** One field of a JSON request body: missing, a string, or some other JSON value. */
  datatype Field = Absent | Str(s: string) | NonString

  /** The JSON body of `POST /bookings`. Keys the schema does not know are dropped on parsing and not modelled. */
  datatype BookingPayload = BookingPayload(
    serviceId: Field,
    date: Field,
    time: Field,
    clientName: Field,
    clientEmail: Field,
    clientPhone: Field,
    notes: Field)

  /** A route's HTTP answer: a status with the JSON value, or a status with `{ error: message }`. */
  datatype Reply<+T> = Success(status: nat, value: T) | Failure(status: nat, error: string)
}
