// Who may do what to a lab.

module Identity {
  import opened Types

  datatype Role = Student | Teacher | Admin

  datatype CourseRole = Learner | CourseTeacher

  datatype Action =
    | LabCreate
    | LabRead
    | LabFreeze
    | LabUnfreeze
    | LabExtend
    | LabDelete
    | LabSshKey
    | CheckRun
    | AdminPool
    | AdminSetting
    | AdminQuota
    | AdminAudit

  datatype Subject = Subject(user: UserId, role: Role, courseRoles: map<CourseId, CourseRole>)

  datatype Resource =
    | LabResource(owner: UserId, course: CourseId)
    | CourseResource(course: CourseId)
    | GlobalAdminResource

  predicate Can(s: Subject, action: Action, r: Resource) {
    match action
    case AdminPool | AdminAudit | AdminQuota => s.role == Admin
    case AdminSetting => s.role == Admin || s.role == Teacher
    case _ => r.LabResource? && CanActOnLab(s, action, r)
  }

  predicate TeachesCourse(s: Subject, course: CourseId) {
    course in s.courseRoles && s.courseRoles[course] == CourseTeacher
  }

  predicate CanActOnLab(s: Subject, action: Action, r: Resource)
    requires r.LabResource?
  {
    if s.role == Admin then true
    else if TeachesCourse(s, r.course) then action != LabSshKey
    else r.owner == s.user && action != LabUnfreeze && action != LabExtend
  }

  // Who may do what to a lab: an administrator everything, a teacher of its
  // course everything but read its key, its owner everything but what is for
  // teachers, and nobody else anything.
  lemma CanOnLabIff(s: Subject, action: Action, owner: UserId, course: CourseId)
    requires action !in {AdminPool, AdminSetting, AdminQuota, AdminAudit}
    ensures Can(s, action, LabResource(owner, course)) <==>
      || s.role == Admin
      || (course in s.courseRoles && s.courseRoles[course] == CourseTeacher && action != LabSshKey)
      || ((course in s.courseRoles ==> s.courseRoles[course] == Learner) && s.user == owner
          && action !in {LabUnfreeze, LabExtend})
  {
  }

  // A learner of the course who is not the owner may do nothing, and neither
  // may a stranger, whatever their role elsewhere.
  lemma OutsiderCannot(s: Subject, action: Action, owner: UserId, course: CourseId)
    requires s.role != Admin && s.user != owner
    requires course in s.courseRoles ==> s.courseRoles[course] == Learner
    requires action !in {AdminPool, AdminSetting, AdminQuota, AdminAudit}
    ensures !Can(s, action, LabResource(owner, course))
  {
    CanOnLabIff(s, action, owner, course);
  }

  // The administration does not depend on any lab.
  lemma CanAdministerIff(s: Subject, action: Action, r: Resource)
    requires action in {AdminPool, AdminSetting, AdminQuota, AdminAudit}
    ensures Can(s, action, r) <==> s.role == Admin || (s.role == Teacher && action == AdminSetting)
  {
  }
}
