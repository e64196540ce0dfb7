/** The application's one record: a person's profile, with camel-case property names. */
module Types {

  datatype PersonInfo = PersonInfo(
    id: string,
    name: string,
    lastName: string,
    address: string,
    personalCode: string,
    phoneNumber: string,
    additionalInfo: string,
    diseaseOrProblem: string,
    status: string,
    emergencyNote: string,
    createdAt: string)
}
